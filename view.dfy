/** What `displayProjects` shows for a list and a page, and what the legacy `fetchGitHubRepos`
    shows for one fetched page. */
module View {
  import opened Seqs
  import opened Repos
  import opened Filters

  /** `projectsPerPage`. */
  const PageSize: nat := 6

  function Min(a: int, b: int): int
  {
    if a <= b then a else b
  }

  /** `s.slice(start, end)` for non-negative bounds: both are clamped to the length. */
  function Slice<T>(s: seq<T>, start: nat, end: nat): (r: seq<T>)
    ensures |r| == if start < end && start < |s| then Min(end, |s|) - start else 0
    ensures forall i :: 0 <= i < |r| ==> start + i < |s| && r[i] == s[start + i]
  {
    if start >= end || start >= |s| then [] else s[start..Min(end, |s|)]
  }

  /** The cards of page `page` (counted from 1): `repos.slice((page - 1) * 6, (page - 1) * 6 + 6)`. */
  function PageOf(repos: seq<Repo>, page: nat): seq<Repo>
    requires page >= 1
  {
    Slice(repos, (page - 1) * PageSize, (page - 1) * PageSize + PageSize)
  }

  /** The load-more button stays visible unless the page's end reaches the list's length. */
  predicate LoadMoreVisible(repos: seq<Repo>, page: nat)
    requires page >= 1
  {
    !((page - 1) * PageSize + PageSize >= |repos|)
  }

  /** The page holds at most `PageSize` cards, the ones at offsets `(page - 1) * 6` onwards, and is
      empty exactly when that offset is at or past the end of the list. */
  lemma PageOfSpec(repos: seq<Repo>, page: nat)
    requires page >= 1
    ensures |PageOf(repos, page)| <= PageSize
    ensures forall i :: 0 <= i < |PageOf(repos, page)| ==>
      PageOf(repos, page)[i] == repos[(page - 1) * PageSize + i]
    ensures PageOf(repos, page) == [] <==> |repos| <= (page - 1) * PageSize
    ensures PageOf(repos, page) == repos[Min((page - 1) * PageSize, |repos|)..Min(page * PageSize, |repos|)]
  {
  }

  /** The button is shown exactly when the next page would not be empty. */
  lemma LoadMoreIffNextPage(repos: seq<Repo>, page: nat)
    requires page >= 1
    ensures LoadMoreVisible(repos, page) <==> PageOf(repos, page + 1) != []
    ensures !LoadMoreVisible(repos, page) <==> page * PageSize >= |repos|
  {
    PageOfSpec(repos, page + 1);
  }

  /** The slices `displayProjects` takes for `currentPage` = `1..n`, joined in order. */
  ghost function PagesThrough(repos: seq<Repo>, n: nat): seq<Repo>
  {
    if n == 0 then [] else PagesThrough(repos, n - 1) + PageOf(repos, n)
  }

  /** The slices of pages `1..n` join to the first `min(|repos|, 6n)` repositories, each once and in order. */
  lemma {:induction false} PagesThroughPrefix(repos: seq<Repo>, n: nat)
    ensures PagesThrough(repos, n) == repos[..Min(|repos|, n * PageSize)]
  {
    if n > 0 {
      PagesThroughPrefix(repos, n - 1);
      PageOfSpec(repos, n);
      var a, b := Min(|repos|, (n - 1) * PageSize), Min(|repos|, n * PageSize);
      assert repos[..a] + repos[a..b] == repos[..b];
    }
  }

  /** When `displayProjects` hides the button at `page`, the slices of pages `1..page` join to the whole list. */
  lemma PagesCoverList(repos: seq<Repo>, page: nat)
    requires page >= 1
    requires !LoadMoreVisible(repos, page)
    ensures PagesThrough(repos, page) == repos
  {
    PagesThroughPrefix(repos, page);
    assert repos[..|repos|] == repos;
  }

  /** What `displayProjects(repos)` writes: the page's cards, the button, the featured count,
      the star total (into both `featured-stars-count` and `total-stars`) and the language count. */
  datatype Projection = Projection(
    cards: seq<Repo>,
    loadMoreVisible: bool,
    featuredCount: int,
    stars: nat,
    languageCount: nat)

  /** The projection of `repos` at `page`. */
  function Project(repos: seq<Repo>, page: nat): Projection
    requires page >= 1
  {
    Projection(
      PageOf(repos, page),
      LoadMoreVisible(repos, page),
      Min(|repos|, PageSize * page),
      SumStars(repos),
      |Languages(repos)|)
  }

  /** The featured count is the length of the slices of pages `1..page` joined together, and the
      aggregates are those of the whole list passed in, not of the page's slice. */
  lemma ProjectAggregates(repos: seq<Repo>, page: nat)
    requires page >= 1
    ensures Project(repos, page).featuredCount == |PagesThrough(repos, page)|
    ensures SumStars(Project(repos, page).cards) <= Project(repos, page).stars == SumStars(repos)
    ensures Project(repos, page).languageCount <= |repos|
    ensures Project(repos, page).languageCount == |Languages(repos)|
  {
    PagesThroughPrefix(repos, page);
    PageOfSpec(repos, page);
    SumStarsSlice(repos, Min((page - 1) * PageSize, |repos|), Min(page * PageSize, |repos|));
  }

  /** Filtering can only lower the star total. */
  lemma {:induction false} SumStarsKeep(s: seq<Repo>, p: Repo -> bool)
    ensures SumStars(Keep(s, p)) <= SumStars(s)
  {
    if s != [] {
      SumStarsKeep(s[1..], p);
      SumStarsAppend(if p(s[0]) then [s[0]] else [], Keep(s[1..], p));
    }
  }

  /** What the legacy `fetchGitHubRepos(page, filter)` renders for the page it fetched. */
  datatype LegacyPage = LegacyPage(cards: seq<Repo>, stars: nat, loadMoreVisible: bool)

  /** The legacy rendering: filtered cards, their star total, and a button decided by the size
      of the unfiltered page. */
  function LegacyRender(fetched: seq<Repo>, filter: string): LegacyPage
  {
    var cards := LegacyFilter(fetched, filter);
    LegacyPage(cards, SumStars(cards), !(|fetched| < PageSize))
  }

  /** The legacy cards are a subsequence of what the current filter keeps of the same page, and
      the button depends only on whether a full page came back. */
  lemma LegacyRenderSpec(fetched: seq<Repo>, filter: string)
    ensures IsSubsequence(LegacyRender(fetched, filter).cards, FilterRepositories(fetched, filter))
    ensures LegacyRender(fetched, filter).loadMoreVisible <==> |fetched| >= PageSize
  {
    LegacyFilterIsSubsequence(fetched, filter);
  }

  /** The legacy star total is at most the fetched page's. */
  lemma LegacyRenderStars(fetched: seq<Repo>, filter: string)
    ensures LegacyRender(fetched, filter).stars <= SumStars(fetched)
  {
    if filter == "web" {
      SumStarsKeep(fetched, IsLegacyWeb);
    } else if filter == "api" {
      SumStarsKeep(fetched, IsLegacyApi);
    }
  }
}
