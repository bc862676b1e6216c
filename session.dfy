/** The module-level state of the page and the handlers that change it: `filterProjects`,
    `loadMoreProjects`, `sortProjects`, `toggleTheme`, `updateProjectCounts`, `displayProjects`
    and the `DOMContentLoaded` initialiser. */
module Session {
  import opened Repos
  import opened Filters
  import opened Sorting
  import opened View
  import opened Fetch
  import opened Theme

  /** The `projectCounts` table. */
  datatype Counts = Counts(all: nat, web: nat, api: nat)

  /** The counts `updateProjectCounts(repos)` stores: never more web or api projects than projects. */
  function CountsOf(repos: seq<Repo>): (c: Counts)
    ensures c.all == |repos| && c.web <= c.all && c.api <= c.all
  {
    Counts(|repos|, |FilterRepositories(repos, "web")|, |FilterRepositories(repos, "api")|)
  }

  /** The counts depend only on which repositories there are, not on their order. */
  lemma CountsPermutation(a: seq<Repo>, b: seq<Repo>)
    requires multiset(a) == multiset(b)
    ensures CountsOf(a) == CountsOf(b)
  {
    FilterPermutation(a, b, "web");
    FilterPermutation(a, b, "api");
    assert |a| == |multiset(a)| == |multiset(b)| == |b|;
  }

  /** `filterRepositories(repos, filter)` on an array: `web` and `api` build a new array, anything
      else hands back `repos` itself, so a later in-place sort reorders the caller's list. */
  method FilterArray(repos: array<Repo>, filter: string) returns (r: array<Repo>)
    ensures IsNarrowing(filter) ==> fresh(r)
    ensures !IsNarrowing(filter) ==> r == repos
    ensures r[..] == FilterRepositories(repos[..], filter)
  {
    if IsNarrowing(filter) {
      var s := FilterRepositories(repos[..], filter);
      r := new Repo[|s|](i requires 0 <= i < |s| => s[i]);
      assert r[..] == s;
    } else {
      r := repos;
    }
  }

  /** Copies a parsed response into a new array. */
  method ToArray(s: seq<Repo>) returns (r: array<Repo>)
    ensures fresh(r) && r[..] == s
  {
    r := new Repo[|s|](i requires 0 <= i < |s| => s[i]);
    assert r[..] == s;
  }

  /** What `fetchGitHubRepos(page, filter)` renders, given what the request for each page yields. */
  function FetchPage(pages: nat -> Option<seq<Repo>>, page: nat, filter: string): Option<LegacyPage>
  {
    match pages(page)
    case None => None
    case Some(fetched) => Some(LegacyRender(fetched, filter))
  }

  /** What the initialiser ends with: `handleInitializationError`, or the profile it fetched and
      the projection it displayed (none when no repositories came back). */
  datatype InitOutcome = InitFailed | Initialized(user: Option<User>, shown: Option<Projection>)

  /** The attempt budget both loaders are called with. */
  const DefaultRetries := 3

  class Portfolio {
    var currentPage: nat
    var currentFilter: string
    var currentSort: string
    var totalStarsCount: nat
    var totalForksCount: nat
    var languagesUsed: set<string>
    var allRepositories: array<Repo>
    var projectCounts: Counts
    /** The `data-theme` attribute of the `html` element. */
    var theme: Option<string>
    /** The `theme` entry of local storage. */
    var storedTheme: Option<string>
    /** The contents of `allRepositories`. */
    ghost var Repositories: seq<Repo>

    /** The page is at least 1, the ghost `Repositories` is the contents of `allRepositories`, and the
        counts table agrees with that list. */
    ghost predicate Valid()
      reads this, allRepositories
    {
      currentPage >= 1 && allRepositories[..] == Repositories && projectCounts == CountsOf(Repositories)
    }

    /** The module's initial bindings, with the page's markup theme and local storage as given. */
    constructor (markupTheme: Option<string>, stored: Option<string>)
      ensures Valid() && fresh(allRepositories)
      ensures currentPage == 1 && currentFilter == "all" && currentSort == "stars"
      ensures totalStarsCount == 0 && totalForksCount == 0 && languagesUsed == {}
      ensures allRepositories[..] == [] && projectCounts == Counts(0, 0, 0)
      ensures theme == markupTheme && storedTheme == stored
    {
      currentPage := 1;
      currentFilter := "all";
      currentSort := "stars";
      totalStarsCount, totalForksCount := 0, 0;
      languagesUsed := {};
      allRepositories := new Repo[0];
      projectCounts := Counts(0, 0, 0);
      theme, storedTheme := markupTheme, stored;
      Repositories := [];
      new;
      assert allRepositories[..] == [];
    }

    /** `filterProjects(filter)`: records the filter, goes back to page 1 and asks the legacy
      `fetchGitHubRepos` for that page. `pages(n)` is what that request for page `n` yields:
      `None` when it throws, for instance on an error body whose `filter` or `forEach` fails; no
      cards are rendered then, although on page 1 the grid has already been cleared. */
    method FilterProjects(filter: string, pages: nat -> Option<seq<Repo>>) returns (shown: Option<LegacyPage>)
      requires Valid()
      modifies this`currentFilter, this`currentPage
      ensures Valid()
      ensures currentFilter == filter && currentPage == 1
      ensures shown == FetchPage(pages, 1, filter)
    {
      currentFilter := filter;
      currentPage := 1;
      shown := FetchPage(pages, currentPage, filter);
    }

    /** `loadMoreProjects()`: moves to the next page, whether or not there is one, and asks the
      legacy `fetchGitHubRepos` for it. */
    method LoadMoreProjects(pages: nat -> Option<seq<Repo>>) returns (shown: Option<LegacyPage>)
      requires Valid()
      modifies this`currentPage
      ensures Valid()
      ensures currentPage == old(currentPage) + 1
      ensures shown == FetchPage(pages, currentPage, currentFilter)
    {
      currentPage := currentPage + 1;
      shown := FetchPage(pages, currentPage, currentFilter);
    }

    /** `toggleTheme()`: swaps the attribute and saves the new value. */
    method ToggleTheme()
      modifies this`theme, this`storedTheme
      ensures theme == Some(NextTheme(old(theme))) && storedTheme == theme
    {
      var t := NextTheme(theme);
      theme := Some(t);
      storedTheme := Some(t);
    }

    /** `updateProjectCounts(repos)`. */
    method UpdateProjectCounts(repos: array<Repo>)
      modifies this`projectCounts
      ensures projectCounts == CountsOf(repos[..])
    {
      var all := repos.Length;
      var web := FilterRepositories(repos[..], "web");
      var api := FilterRepositories(repos[..], "api");
      projectCounts := Counts(all, |web|, |api|);
    }

    /** `displayProjects(repos)`: the current page of `repos`, the load-more button, and the
      featured, star and language figures over all of `repos`. */
    method DisplayProjects(repos: array<Repo>) returns (shown: Projection)
      requires currentPage >= 1
      ensures shown == Project(repos[..], currentPage)
      ensures |shown.cards| <= PageSize && shown.stars == SumStars(repos[..])
    {
      var start := (currentPage - 1) * PageSize;
      var end := start + PageSize;
      var pageRepos := Slice(repos[..], start, end);
      var loadMore := !(end >= repos.Length);
      shown := Projection(pageRepos, loadMore, Min(repos.Length, PageSize * currentPage),
        SumStars(repos[..]), |Languages(repos[..])|);
      PageOfSpec(repos[..], currentPage);
    }

    /** `sortProjects(sortBy)`: records the key, goes back to page 1 and shows the filtered list
      sorted by it. With a filter other than `web` or `api` the cached list itself is sorted. */
    method SortProjects(sortBy: string) returns (shown: Projection)
      requires Valid()
      modifies this`currentSort, this`currentPage, this`Repositories, allRepositories
      ensures Valid()
      ensures currentSort == sortBy && currentPage == 1
      ensures allRepositories[..] ==
        if IsNarrowing(currentFilter) then old(allRepositories[..]) else SortedBy(old(allRepositories[..]), sortBy)
      ensures shown == Project(SortedBy(FilterRepositories(old(allRepositories[..]), currentFilter), sortBy), 1)
    {
      ghost var before := allRepositories[..];
      currentSort := sortBy;
      currentPage := 1;
      var filtered := FilterArray(allRepositories, currentFilter);
      ghost var view := filtered[..];
      assert view == FilterRepositories(before, currentFilter);
      var sorted := SortRepositories(filtered, sortBy);
      assert sorted[..] == SortedBy(view, sortBy);
      shown := DisplayProjects(sorted);
      if IsNarrowing(currentFilter) {
        assert allRepositories[..] == before;
      } else {
        assert filtered == allRepositories;
        FilterOtherIsIdentity(before, currentFilter);
        assert allRepositories[..] == SortedBy(before, sortBy);
      }
      SortedByPermutes(before, sortBy);
      Repositories := allRepositories[..];
      CountsPermutation(before, Repositories);
    }

    /** The assignments the initialiser makes once repositories came back: the cache, the totals,
      the language set and the counts table. */
    method CacheRepositories(repos: seq<Repo>)
      modifies this`allRepositories, this`Repositories, this`projectCounts
      modifies this`totalStarsCount, this`totalForksCount, this`languagesUsed
      ensures fresh(allRepositories) && allRepositories[..] == repos && Repositories == repos
      ensures projectCounts == CountsOf(repos)
      ensures totalStarsCount == SumStars(repos) && totalForksCount == SumForks(repos)
      ensures languagesUsed == Languages(repos)
    {
      allRepositories := ToArray(repos);
      Repositories := repos;
      totalStarsCount, totalForksCount := SumStars(repos), SumForks(repos);
      languagesUsed := Languages(repos);
      UpdateProjectCounts(allRepositories);
    }

    /** The branch of the initialiser that received repositories: caches them, sorts the cache by
      stars and displays it. */
    method ShowRepositories(repos: seq<Repo>) returns (shown: Projection)
      requires currentPage >= 1
      modifies this`allRepositories, this`Repositories, this`projectCounts
      modifies this`totalStarsCount, this`totalForksCount, this`languagesUsed
      ensures Valid()
      ensures fresh(allRepositories) && allRepositories[..] == SortSeq(repos, Stars)
      ensures projectCounts == CountsOf(repos)
      ensures totalStarsCount == SumStars(repos) && totalForksCount == SumForks(repos)
      ensures languagesUsed == Languages(repos)
      ensures shown == Project(SortSeq(repos, Stars), currentPage)
    {
      CacheRepositories(repos);
      var sorted := SortRepositories(allRepositories, "stars");
      assert sorted[..] == SortSeq(repos, Stars);
      shown := DisplayProjects(sorted);
      SortedByPermutes(repos, "stars");
      Repositories := sorted[..];
      CountsPermutation(repos, Repositories);
    }

    /** The `DOMContentLoaded` handler, with the two loaders run one after the other. */
    method Initialize(userNetwork: nat -> Attempt<User>, repoNetwork: nat -> Attempt<seq<Repo>>)
      returns (outcome: InitOutcome)
      requires Valid()
      modifies this`theme, this`allRepositories, this`Repositories, this`projectCounts
      modifies this`totalStarsCount, this`totalForksCount, this`languagesUsed
      ensures Valid()
      ensures theme == Some(InitialTheme(storedTheme))
      ensures outcome.InitFailed? <==>
        UserFrom(userNetwork, 0, DefaultRetries).None? && ReposFrom(repoNetwork, 0, DefaultRetries) == []
      ensures outcome.Initialized? ==> outcome.user == UserFrom(userNetwork, 0, DefaultRetries)
      ensures ReposFrom(repoNetwork, 0, DefaultRetries) == [] ==>
        && allRepositories == old(allRepositories) && projectCounts == old(projectCounts)
        && totalStarsCount == old(totalStarsCount) && totalForksCount == old(totalForksCount)
        && languagesUsed == old(languagesUsed)
      ensures ReposFrom(repoNetwork, 0, DefaultRetries) == [] && outcome.Initialized? ==> outcome.shown == None
      ensures ReposFrom(repoNetwork, 0, DefaultRetries) != [] ==>
        var repos := ReposFrom(repoNetwork, 0, DefaultRetries);
        && fresh(allRepositories)
        && allRepositories[..] == SortSeq(repos, Stars)
        && projectCounts == CountsOf(repos)
        && totalStarsCount == SumStars(repos) && totalForksCount == SumForks(repos)
        && languagesUsed == Languages(repos)
        && outcome == Initialized(outcome.user, Some(Project(SortSeq(repos, Stars), currentPage)))
    {
      theme := Some(InitialTheme(storedTheme));
      var user, _, _ := FetchGitHubUser(userNetwork, DefaultRetries);
      var fetched, _, _ := FetchAllRepositories(repoNetwork, DefaultRetries);
      var userData, allRepos := user.value, fetched.value;
      if userData.None? && |allRepos| == 0 {
        return InitFailed;
      }
      if |allRepos| > 0 {
        var shown := ShowRepositories(allRepos);
        return Initialized(userData, Some(shown));
      }
      return Initialized(userData, None);
    }
  }

  /** Sorting by any key, known or not, permutes the list. */
  lemma SortedByPermutes(s: seq<Repo>, sortBy: string)
    ensures multiset(SortedBy(s, sortBy)) == multiset(s)
  {
    if SortKeyOf(sortBy).Some? {
      SortSeqMultiset(s, SortKeyOf(sortBy).value);
    }
  }
}
