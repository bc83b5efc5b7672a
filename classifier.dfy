/** `categorizeProject`: assigns every described repository exactly one category key. */
module Classifier {
  import opened Wrappers
  import opened Text
  import opened Registry
  import opened Records

  /** Whether some keyword occurs in the name or in the description: a scan over the keywords
      that stops at the first one found in either text. */
  function AnyKeyword(keywords: seq<string>, name: string, description: string): (b: bool)
    ensures b <==> exists k :: k in keywords && (IsSubstring(k, name) || IsSubstring(k, description))
  {
    if keywords == [] then false
    else
      var k := keywords[0];
      if Includes(name, k) || Includes(description, k) then true
      else
        var b := AnyKeyword(keywords[1..], name, description);
        assert forall k' :: k' in keywords ==> k' == k || k' in keywords[1..];
        b
  }

  /** A category's rule matches when its language list holds the language or one of its
      keywords occurs in the name or in the description. */
  predicate RuleMatches(rule: Category, language: string, name: string, description: string)
    ensures RuleMatches(rule, language, name, description) <==>
      language in rule.languages ||
      exists k :: k in rule.keywords && (IsSubstring(k, name) || IsSubstring(k, description))
  {
    language in rule.languages || AnyKeyword(rule.keywords, name, description)
  }

  /** The repository's language, or the empty string when it has none. */
  function LanguageOf(repo: Repository): (language: string)
    ensures repo.language.None? ==> language == ""
    ensures repo.language.Some? ==> language == repo.language.value
  {
    repo.language.GetOr("")
  }

  /** The rules of `table["data-science"]` and then of `table["websites"]` are tried in that
      order; the first that matches names the category, and "other" is the default. The rule
      stored under "other" is never looked up. */
  function Classify(table: seq<Entry>, repo: Repository): (key: string)
    requires DataScience in Keys(table) && Websites in Keys(table)
    requires repo.description.Some?
    ensures key == DataScience || key == Websites || key == Other
  {
    var name := ToLower(repo.name);
    var description := ToLower(repo.description.value);
    var language := LanguageOf(repo);
    if RuleMatches(Lookup(table, DataScience).value, language, name, description) then DataScience
    else if RuleMatches(Lookup(table, Websites).value, language, name, description) then Websites
    else Other
  }

  /** The classifier over the page's own table: total, and always a key of that table. */
  function Categorize(repo: Repository): (key: string)
    requires repo.description.Some?
    ensures IsKey(key)
  {
    CategoryKeys();
    Classify(Categories, repo)
  }

  /** Some keyword occurs, case-insensitively, in the repository's name or description. */
  ghost predicate Mentions(keywords: seq<string>, repo: Repository)
    requires repo.description.Some?
  {
    exists k :: k in keywords &&
      (IsSubstring(k, ToLower(repo.name)) || IsSubstring(k, ToLower(repo.description.value)))
  }

  /** A data-science keyword decides the category, whatever else matches. */
  lemma CategorizeDataScience(repo: Repository)
    requires repo.description.Some?
    ensures Categorize(repo) == DataScience <==> Mentions(DataScienceKeywords, repo)
  {
  }

  /** "websites" exactly when no data-science keyword occurs and some website keyword does. */
  lemma CategorizeWebsites(repo: Repository)
    requires repo.description.Some?
    ensures Categorize(repo) == Websites <==>
      !Mentions(DataScienceKeywords, repo) && Mentions(WebsiteKeywords, repo)
  {
  }

  /** "other" exactly when neither rule matches; the keywords listed under "other" play no part. */
  lemma CategorizeOther(repo: Repository)
    requires repo.description.Some?
    ensures Categorize(repo) == Other <==>
      !Mentions(DataScienceKeywords, repo) && !Mentions(WebsiteKeywords, repo)
  {
  }

  /** The repository's language never changes its category: every language list is empty. */
  lemma LanguageIrrelevant(repo: Repository, language: Option<string>)
    requires repo.description.Some?
    ensures Categorize(repo.(language := language)) == Categorize(repo)
  {
  }

  /** Replacing the rule stored under "other" by any rule at all changes no outcome. */
  lemma OtherRuleIgnored(rule: Category, repo: Repository)
    requires repo.description.Some?
    ensures Classify(Categories[..2] + [Entry(Other, rule)], repo) == Categorize(repo)
  {
  }

  /** Matching is case-insensitive: lower-casing the name and the description first
      changes nothing. */
  lemma CaseInsensitive(repo: Repository)
    requires repo.description.Some?
    ensures Categorize(repo.(name := ToLower(repo.name),
                             description := Some(ToLower(repo.description.value))))
         == Categorize(repo)
  {
    ToLowerIdempotent(repo.name);
    ToLowerIdempotent(repo.description.value);
  }
}
