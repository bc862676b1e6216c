/** The project filters: `filterRepositories` and the older predicates of `fetchGitHubRepos`. */
module Filters {
  import opened Text
  import opened Seqs
  import opened Repos

  /** `repo.topics?.includes(t)`: false when the topics are missing. */
  predicate HasTopic(r: Repo, t: string)
  {
    r.topics.Some? && t in r.topics.value
  }

  /** `repo.name.toLowerCase().includes(sub)`. */
  predicate NameHas(r: Repo, sub: string)
  {
    Contains(ToLower(r.name), sub)
  }

  /** `repo.description?.toLowerCase().includes(sub)`: false when there is no description. */
  predicate DescriptionHas(r: Repo, sub: string)
  {
    r.description.Some? && Contains(ToLower(r.description.value), sub)
  }

  /** The predicate of the `web` branch of `filterRepositories`. */
  predicate IsWeb(r: Repo)
  {
    HasTopic(r, "web") || HasTopic(r, "website")
    || r.language == Some("JavaScript") || r.language == Some("TypeScript") || r.language == Some("HTML")
    || NameHas(r, "web") || NameHas(r, "app")
  }

  /** The predicate of the `api` branch of `filterRepositories`. */
  predicate IsApi(r: Repo)
  {
    HasTopic(r, "api") || NameHas(r, "api") || NameHas(r, "service") || DescriptionHas(r, "api")
  }

  /** The filters with a branch of their own; every other value falls to `default`. */
  predicate IsNarrowing(filter: string)
  {
    filter == "web" || filter == "api"
  }

  /** Whether `filterRepositories(repos, filter)` keeps `r`. */
  predicate Matches(r: Repo, filter: string)
  {
    if filter == "web" then IsWeb(r) else if filter == "api" then IsApi(r) else true
  }

  /** `filterRepositories(repos, filter)`: `web` and `api` filter, anything else returns `repos`. */
  function FilterRepositories(repos: seq<Repo>, filter: string): seq<Repo>
  {
    if filter == "web" then Keep(repos, IsWeb)
    else if filter == "api" then Keep(repos, IsApi)
    else repos
  }

  /** The filtered list is an order-preserving subsequence of the input holding exactly the
      repositories the filter matches. */
  lemma FilterSpec(repos: seq<Repo>, filter: string)
    ensures IsSubsequence(FilterRepositories(repos, filter), repos)
    ensures forall i :: 0 <= i < |FilterRepositories(repos, filter)| ==>
      FilterRepositories(repos, filter)[i] in repos && Matches(FilterRepositories(repos, filter)[i], filter)
    ensures forall i :: 0 <= i < |repos| && Matches(repos[i], filter) ==> repos[i] in FilterRepositories(repos, filter)
  {
    if filter == "web" {
      KeepIsSubsequence(repos, IsWeb);
      KeepMembers(repos, IsWeb);
    } else if filter == "api" {
      KeepIsSubsequence(repos, IsApi);
      KeepMembers(repos, IsApi);
    } else {
      SubsequenceRefl(repos);
    }
  }

  /** Each matching repository is kept as many times as it occurs, and no other one is kept. */
  lemma FilterMultiset(repos: seq<Repo>, filter: string, x: Repo)
    ensures multiset(FilterRepositories(repos, filter))[x] == if Matches(x, filter) then multiset(repos)[x] else 0
  {
    if filter == "web" {
      KeepMultiset(repos, IsWeb, x);
    } else if filter == "api" {
      KeepMultiset(repos, IsApi, x);
    }
  }

  /** `all` and every unknown filter give back the input unchanged. */
  lemma FilterOtherIsIdentity(repos: seq<Repo>, filter: string)
    requires !IsNarrowing(filter)
    ensures FilterRepositories(repos, filter) == repos
  {
  }

  /** Reordering the input does not change how many repositories a filter keeps. */
  lemma FilterPermutation(a: seq<Repo>, b: seq<Repo>, filter: string)
    requires multiset(a) == multiset(b)
    ensures |FilterRepositories(a, filter)| == |FilterRepositories(b, filter)|
  {
    if filter == "web" {
      KeepPermutation(a, b, IsWeb);
    } else if filter == "api" {
      KeepPermutation(a, b, IsApi);
    } else {
      assert |a| == |multiset(a)| == |multiset(b)| == |b|;
    }
  }

  /** The `web` predicate of `fetchGitHubRepos`. */
  predicate IsLegacyWeb(r: Repo)
  {
    HasTopic(r, "web") || r.language == Some("JavaScript") || r.language == Some("TypeScript")
  }

  /** The `api` predicate of `fetchGitHubRepos`. */
  predicate IsLegacyApi(r: Repo)
  {
    HasTopic(r, "api") || NameHas(r, "api")
  }

  /** The filtering step of `fetchGitHubRepos(page, filter)`. */
  function LegacyFilter(repos: seq<Repo>, filter: string): seq<Repo>
  {
    if filter == "web" then Keep(repos, IsLegacyWeb)
    else if filter == "api" then Keep(repos, IsLegacyApi)
    else repos
  }

  /** Whether the legacy filter keeps `r`. */
  predicate LegacyMatches(r: Repo, filter: string)
  {
    if filter == "web" then IsLegacyWeb(r) else if filter == "api" then IsLegacyApi(r) else true
  }

  /** The current predicates only widen the legacy ones. */
  lemma LegacyImpliesCurrent(r: Repo, filter: string)
    ensures LegacyMatches(r, filter) ==> Matches(r, filter)
  {
  }

  /** So over the same list the legacy filter keeps an order-preserving subsequence of what
      `filterRepositories` keeps. */
  lemma LegacyFilterIsSubsequence(repos: seq<Repo>, filter: string)
    ensures IsSubsequence(LegacyFilter(repos, filter), FilterRepositories(repos, filter))
  {
    if filter == "web" {
      KeepStronger(repos, IsLegacyWeb, IsWeb);
    } else if filter == "api" {
      KeepStronger(repos, IsLegacyApi, IsApi);
    } else {
      SubsequenceRefl(repos);
    }
  }
}
