# Portfolio project pipeline

A Dafny model of the decision logic of the portfolio page `Home` (`meu-portfolio/pages/index.js`):
the fixed category table, the filter that drops forks, undescribed repositories and the profile
repository from the fetched listing, the keyword classifier `categorizeProject`, the labelling
of every kept repository with its category, the two render-time queries `getFilteredProjects`
and `getProjectCount`, and the component state (`projects`, `loading`, `activeCategory`) with
the transitions that the fetch and the filter buttons apply.

Modules, one per part of the page:

- `Wrappers`: `Option`, for the nullable fields of a record.
- `Text`: `toLowerCase` (`ToLower`) and `includes` (`Includes`), the latter proved against a
  declarative substring predicate.
- `Seqs`: `Array.prototype.filter` (`Filter`) with order and multiplicity lemmas.
- `Records`: the repository record and the labelled copy `{ ...repo, category }`.
- `Registry`: the category table in display order and key lookup.
- `Classifier`: `categorizeProject`, parameterised by the table it reads (`Classify`) and
  instantiated with the page's table (`Categorize`).
- `Acquisition`: the filter and the labelling map inside `fetchGitHubProjects`.
- `WorkingSet`: `getFilteredProjects` and `getProjectCount` as functions of the project list and
  the selection.
- `Page`: class `Home` holding the component state; a fetch outcome is a parameter.

What `fetchGitHubProjects` and `categorizeProject` actually do:

- The code issues one request, with no timeout and no retry, and has no embedded fallback list.
  A failure is only logged, so `projects` stays as it was (empty at mount). There is no
  diagnostic message.
- Every language list in the table is empty, so the language rule never fires.
- The classifier does not iterate over the table. It looks up `data-science` and then
  `websites` by key, and returns `other` when neither matches. The `other` keywords are never
  read. A repository mentioning "computação gráfica" is therefore `other` by the default, not
  by a match.

## Model

| member | source | states |
|---|---|---|
| Text.LowerChar | meu-portfolio/pages/index.js:65-66 | the lowered character is never upper-case; non-upper characters are unchanged; upper-case ones move to their lower-case partner (+32) |
| Text.ToLower | meu-portfolio/pages/index.js:65-66 | `toLowerCase` keeps the length and lowers each character independently |
| Text.ToLowerIdempotent | meu-portfolio/pages/index.js:65-66 | lowering twice equals lowering once |
| Text.Includes | meu-portfolio/pages/index.js:74 | `includes` is true exactly when the pattern occurs as a contiguous block at some index of the text |
| Seqs.Filter | meu-portfolio/pages/index.js:42-46 | the filter returns no more elements than it got; every returned element came from the input and satisfies the predicate; every input element satisfying it is returned |
| Seqs.FilterIsSubsequence | meu-portfolio/pages/index.js:42-46 | the filter's output is a subsequence of its input (original order kept) |
| Seqs.FilterMultiplicity | meu-portfolio/pages/index.js:98 | each element satisfying the predicate is kept exactly as many times as it occurs; every other element is gone |
| Records.WithCategory | meu-portfolio/pages/index.js:49-52 | the copy has every field of the repository unchanged plus the given category |
| Records.WithCategoryInjective | meu-portfolio/pages/index.js:49-52 | a labelled project is rebuilt exactly from its source record and its category |
| Registry.Keys | meu-portfolio/pages/index.js:10-29 | the keys of a table, one per entry, in entry order |
| Registry.Lookup | meu-portfolio/pages/index.js:179 | `table[key]` is defined exactly when key is one of the table's keys, and is then the category stored under it |
| Registry.CategoryKeys | meu-portfolio/pages/index.js:10-29 | the table's keys are `data-science`, `websites`, `other` in this order; `all` is not a key |
| Registry.NoLanguageRules | meu-portfolio/pages/index.js:15-27 | every entry's language list is empty |
| Classifier.AnyKeyword | meu-portfolio/pages/index.js:73-75 | `keywords.some(...)` is true exactly when some keyword is a substring of the name or of the description |
| Classifier.RuleMatches | meu-portfolio/pages/index.js:71-84 | a category's rule matches exactly when its language list holds the language or one of its keywords is a substring of the name or of the description |
| Classifier.LanguageOf | meu-portfolio/pages/index.js:67 | the repository's language, or the empty string when it has none |
| Classifier.Classify | meu-portfolio/pages/index.js:64-91 | for any table holding the two consulted keys, the result is `data-science`, `websites` or `other` |
| Classifier.Categorize | meu-portfolio/pages/index.js:64-91 | total on every described repository; the result is always a key of the page's table |
| Classifier.CategorizeDataScience | meu-portfolio/pages/index.js:71-77 | the result is `data-science` exactly when some data-science keyword occurs in the lowered name or description, whatever website keyword also occurs (first match wins) |
| Classifier.CategorizeWebsites | meu-portfolio/pages/index.js:80-86 | the result is `websites` exactly when no data-science keyword occurs and some website keyword does |
| Classifier.CategorizeOther | meu-portfolio/pages/index.js:89 | the result is `other` exactly when neither keyword list occurs; the `other` keywords play no part |
| Classifier.LanguageIrrelevant | meu-portfolio/pages/index.js:67-81 | changing the repository's language, or removing it, never changes its category |
| Classifier.OtherRuleIgnored | meu-portfolio/pages/index.js:23-28 | replacing the `other` entry of the page's table by any rule whatsoever changes no classification |
| Classifier.CaseInsensitive | meu-portfolio/pages/index.js:65-66 | lowering the name and description beforehand does not change the category |
| Acquisition.Keep | meu-portfolio/pages/index.js:42-46 | a kept record always has a non-empty description (so the classifier can lower-case it); a fork or the record named `AleFuzeti` is never kept |
| Acquisition.Acquire | meu-portfolio/pages/index.js:42-46 | exactly the records that are not forks, have a non-empty description and are not named `AleFuzeti` are kept, in their original order, each as often as fetched |
| Acquisition.ExcludedNeverListed | meu-portfolio/pages/index.js:42-46 | a fork, an undescribed record or the profile repository never reaches the classifier or the project list |
| Acquisition.Label | meu-portfolio/pages/index.js:49-52 | a labelled copy keeps all fields of its repository and carries a key of the table |
| Acquisition.LabelAll | meu-portfolio/pages/index.js:49-52 | the map keeps the length and the order: the i-th project is the i-th repository with its category added |
| Acquisition.Pipeline | meu-portfolio/pages/index.js:42-54 | every listed project comes from a kept fetched record and carries a key of the table |
| Acquisition.PipelineSources | meu-portfolio/pages/index.js:49-52 | removing the labels from the listed projects gives back exactly the filtered records, in order |
| WorkingSet.FilteredProjects | meu-portfolio/pages/index.js:94-99 | for `all` the project list unchanged; for any other key exactly the projects labelled with it; in both cases a subsequence of the projects (original order) |
| WorkingSet.ProjectCount | meu-portfolio/pages/index.js:102-105 | the count for any key, `all` included, is the length of the list that selecting it shows, and never exceeds the number of projects |
| WorkingSet.FilteredAll | meu-portfolio/pages/index.js:95-97 | selecting `all` returns the project list unchanged |
| WorkingSet.FilteredByKey | meu-portfolio/pages/index.js:98 | selecting a key returns exactly the projects with that category, in their original order, each as often as it occurs |
| WorkingSet.CountMatchesFiltered | meu-portfolio/pages/index.js:102-105 | for every key including `all`, the count equals the length of the filtered list |
| WorkingSet.CountIsOccurrences | meu-portfolio/pages/index.js:104 | the count of a category key is the number of projects labelled with it |
| WorkingSet.CountsPartition | meu-portfolio/pages/index.js:103-104 | when every project carries a table key, the three category counts sum to the count of `all` |
| WorkingSet.FilteredPartition | meu-portfolio/pages/index.js:94-99 | under the same condition the three category lists together hold each project exactly as often as the full list |
| Page.Home.constructor | meu-portfolio/pages/index.js:5-7 | the page starts with no projects, loading, and `all` selected |
| Page.Home.FetchGitHubProjects | meu-portfolio/pages/index.js:36-60 | on a payload the projects become the filtered, labelled records; on a failure they are unchanged; loading always ends; the selection is untouched; the invariant holds |
| Page.Home.SelectCategory | meu-portfolio/pages/index.js:152-163 | a filter button sets the selection to `all` or a table key and changes nothing else |
| Page.Home.GetFilteredProjects | meu-portfolio/pages/index.js:94-99 | the list is the working-set view for the current selection: all projects for `all`, otherwise exactly those of the selected category; every shown project's category has an entry in the table |
| Page.Home.GetProjectCount | meu-portfolio/pages/index.js:102-105 | the count is the length of the list that selecting the key would show |
| Page.Home.ActiveCategory | meu-portfolio/pages/index.js:175-181 | the heading's table entry is absent only when `all` is selected, and otherwise is the entry stored under the selected key |
| Page.Mount | meu-portfolio/pages/index.js:32-34 | mounting and one fetch leave loading off and `all` selected; projects are the pipeline's output, or empty if the fetch failed |

## Left out

- The request and the JSON parsing (`fetch`, `response.json`) are foreign I/O. The model takes
  their outcome as a parameter: a parsed array of records, or a failure. A failure also covers
  a payload that is not an array, which makes `data.filter` throw.
- Records whose fields have other types than expected (a missing name, a non-string
  description) would throw inside the `try`. They are not representable in the `Repository`
  datatype. Their effect, an unchanged project list, is what `Failure` models.
- Other fields of a record, including `id` (used only as the React key at index.js:186), are not modelled.
- The React hooks and the effect scheduling are not modelled, nor is asynchrony. Only the
  state transitions they cause are kept (`Page.Home`, `Page.Mount`).
- JSX rendering, the style block and the `Head` metadata are presentational and not modelled.
- `console.log` and `console.error` are logging side channels and are not modelled.
- Text.LowerChar: lowers ASCII A-Z and the Latin-1 capitals U+00C0-U+00DE except U+00D7. Every
  other character is left unchanged, whereas `toLowerCase` also maps the rest of Unicode (and
  can change a string's length, as for U+0130). JavaScript strings are UTF-16 code units; Dafny
  characters are Unicode scalar values.
- Concrete example classifications (such as a repository named "CNN-LIBRAS" being data
  science) are not stated as lemmas. Evaluating them on literals is too costly for the solver.
  The three characterisation lemmas of `Classifier` cover them.
- A timeout, a retry and an embedded fallback list do not exist in this code and are not modelled.
- `meu-portfolio/next.config.js` is static build configuration with no logic beyond an
  environment-driven `basePath` switch, and is not part of this model.
