# Portfolio repository pipeline in Dafny

This project models the logic of the portfolio page script `app.js`. That logic handles:

- the list of GitHub repositories: loading it, filtering it into `all`, `web` and `api` projects, sorting it in place by stars, last update or forks, and paging it six cards at a time;
- the figures shown next to the list: star total, distinct languages, per-filter counts;
- the module-level session state: current page, filter, sort key, cached list and counts table;
- the theme switch;
- the two bounded retry loops that load the profile and the repository list;
- the required-field check of the contact form.

Modules, by file:

- `text.dfy`, module `Text`:
  - ASCII `toLowerCase`;
  - the `includes` substring test.
- `seqs.dfy`, module `Seqs`:
  - `Array.prototype.filter` on values (`Keep`);
  - what an order-preserving subsequence is.
- `repos.dfy`, module `Repos`:
  - the repository and profile records;
  - the star and fork sums;
  - the language set.
- `filters.dfy`, module `Filters`:
  - `filterRepositories` and its `web` and `api` predicates;
  - the older predicates inside `fetchGitHubRepos`.
- `sorting.dfy`, module `Sorting`:
  - `sortRepositories`, an in-place, stable, descending insertion sort on an `array`;
  - it is proved equal to a reference function `SortSeq`, and that function is proved sorted, a permutation, stable and idempotent.
- `view.dfy`, module `View`:
  - what `displayProjects` writes for a list and a page: the slice, the load-more button, the featured count, the star total and the language count;
  - what the legacy `fetchGitHubRepos` renders for one fetched page.
- `fetch.dfy`, module `Fetch`:
  - the `for` loops of `fetchAllRepositories` and `fetchGitHubUser`, as `while` loops;
  - the network is a parameter: `network(i)` is the outcome of request `i`.
- `theme.dfy`, module `Theme`:
  - the theme chosen on load;
  - `toggleTheme`.
- `contact.dfy`, module `Contact`: the contact-form submit handler and its outcomes.
- `session.dfy`, module `Session`: the class `Portfolio`. It holds the module-level variables. Its methods are:
  - `filterProjects`, `loadMoreProjects`, `sortProjects` and `toggleTheme`;
  - `updateProjectCounts` and `displayProjects`;
  - the `DOMContentLoaded` initialiser.

  `allRepositories` is an `array`. The model keeps the aliasing of the script:
  - For the filters `web` and `api`, `filterRepositories` builds a new array.
  - For any other filter, it returns the cached array itself. `sortRepositories` then sorts that array in place.
  - So `sortProjects` under the filter `all` reorders the cache.

  The class invariant `Valid()` says three things:
  - the page is at least 1;
  - the ghost field `Repositories` equals the contents of `allRepositories`;
  - the counts table equals the counts of the cache.

  Sorting only permutes the cache, so the invariant survives it.
- `scenarios.dfy`, module `Scenarios`: concrete inputs and what the model gives for them.

Four behaviours of the script worth noting:

- `loadMoreProjects` increments the page every time. It does not check whether a next page exists; the button is only hidden.
- `sortProjects` under the filter `all` sorts the cached list in place rather than a copy.
- `filterProjects` and `loadMoreProjects` render through the legacy `fetchGitHubRepos`, which has narrower predicates. They do not render through `filterRepositories`.
- The load-more button never steps through the slices of `displayProjects`. It fetches the next page of the GitHub API instead. `displayProjects` is only called on page 1 by `sortProjects` and once by the initialiser, and it clears the grid each time. So the lemmas about pages `1..p` describe the slices `displayProjects` would take at those values of `currentPage`, not a sequence of screens the page shows.

## Model

| member | source | states |
|---|---|---|
| Text.ToLower | app.js:452-453 | The result has the input's length, each character is its ASCII lower-case form, and no upper-case letter remains. |
| Text.Contains | app.js:452-453 | `s.includes(sub)` as a scan from the left: true when `sub` is a prefix of `s` or of one of its suffixes long enough to hold it. |
| Text.ContainsIff | app.js:452-453 | `includes(sub)` holds exactly when `sub` occurs at some offset of the string. |
| Seqs.Keep | app.js:446-461 | `s.filter(p)`: the elements of `s` that pass `p`, in their input order; never longer than `s`. |
| Seqs.KeepMembers | app.js:446-461 | `filter` keeps only elements of the input that pass the test, and every element that passes. |
| Seqs.KeepIsSubsequence | app.js:446-461 | `filter` keeps an order-preserving subsequence of its input. |
| Seqs.KeepMultiset | app.js:446-461 | Each passing element is kept as often as it occurs, and no other element is kept. |
| Seqs.KeepPermutation | app.js:468-471 | Filters of two permutations of one list are permutations of each other and have equal lengths. |
| Seqs.KeepStronger | app.js:114-118 | A test implied by another keeps a subsequence of what the other keeps. |
| Seqs.KeepAppend | app.js:446-461 | Filtering distributes over concatenation. |
| Repos.SumStars | app.js:622 | The `stargazers_count` total of a list, `0` for the empty list. |
| Repos.SumForks | app.js:623 | The `forks_count` total of a list, `0` for the empty list. |
| Repos.SumForksAppend | app.js:623 | The fork total of a concatenation is the sum of the parts' totals. |
| Repos.Languages | app.js:525 | The set of truthy languages has no more members than the list has repositories. |
| Repos.LanguagesComplete | app.js:525 | Every present, non-empty language of the list is in the set. |
| Repos.LanguagesSound | app.js:525 | Every member of the set is the non-empty language of some repository of the list. |
| Repos.SumStarsAppend | app.js:523 | The star sum of a concatenation is the sum of the parts' sums. |
| Repos.SumStarsSlice | app.js:522-524 | Any contiguous slice has a star sum at most the whole list's. |
| Filters.IsWeb | app.js:446-454 | The `web` test: topic `web` or `website`, language JavaScript, TypeScript or HTML, or a lower-cased name holding `web` or `app`. Missing topics fail the topic tests. |
| Filters.IsApi | app.js:456-461 | The `api` test: topic `api`, a lower-cased name holding `api` or `service`, or a lower-cased description holding `api`. Missing topics or description fail those tests. |
| Filters.FilterRepositories | app.js:443-465 | `filterRepositories`: `web` keeps the repositories passing `IsWeb`, `api` those passing `IsApi`, and every other filter returns the list unchanged. |
| Filters.IsLegacyWeb | app.js:115 | The older `web` test: topic `web`, or language JavaScript or TypeScript. |
| Filters.IsLegacyApi | app.js:117 | The older `api` test: topic `api`, or a lower-cased name holding `api`. |
| Filters.LegacyFilter | app.js:111-118 | The filtering step of `fetchGitHubRepos`: the older tests for `web` and `api`, the fetched page unchanged otherwise. |
| Filters.FilterSpec | app.js:443-465 | For every filter, the result is an order-preserving subsequence of the input. It holds only repositories the filter matches and every repository it matches. |
| Filters.FilterMultiset | app.js:443-465 | Each matching repository is kept with its multiplicity, and no other repository is kept. |
| Filters.FilterOtherIsIdentity | app.js:462-463 | `all` and every unknown filter return the input unchanged. |
| Filters.FilterPermutation | app.js:468-471 | Reordering the input does not change how many repositories any filter keeps. |
| Filters.LegacyImpliesCurrent | app.js:114-118 | Every repository the older `web`/`api` tests accept is accepted by the current ones. |
| Filters.LegacyFilterIsSubsequence | app.js:113-118 | Over one list, the legacy filter keeps an order-preserving subsequence of what `filterRepositories` keeps. |
| Sorting.SortKeyOf | app.js:430-438 | Exactly `stars`, `recent` and `forks` select a key; every other value takes the default branch. |
| Sorting.Insert | app.js:431-436 | One step of a stable descending sort: the next repository goes right after the last element of the sorted prefix whose key is at least its own, or first if there is none. |
| Sorting.SortSeq | app.js:431-436 | The reference stable descending sort by one key: each repository in input order inserted into the sorted prefix. |
| Sorting.SortedBy | app.js:429-440 | What `sortRepositories` leaves in the array: `SortSeq` by the key of `stars`, `recent` or `forks`, and the list itself for any other value. |
| Sorting.SortSeqSorted | app.js:431-436 | The sorted list's key never increases from left to right. |
| Sorting.SortSeqMultiset | app.js:431-436 | Sorting is a permutation of the input. |
| Sorting.SortSeqStable | app.js:431-436 | For every key value, the repositories sharing it keep their input order. |
| Sorting.SortSeqOfSorted | app.js:431-436 | A list already in order comes back unchanged. |
| Sorting.SortSeqIdempotent | app.js:431-436 | Sorting a sorted list by the same key gives the same list. |
| Sorting.InsertSorted | app.js:431-436 | Inserting one more repository into a sorted prefix keeps it sorted. |
| Sorting.InsertMultiset | app.js:431-436 | One insertion step adds exactly that repository. |
| Sorting.InsertStable | app.js:431-436 | One insertion step puts the new repository after every earlier one with the same key. |
| Sorting.SortRepositories | app.js:429-440 | Returns the very array it was given. Afterwards the array holds the stable descending sort of its old contents, or the old contents for an unknown key. |
| Sorting.SortInPlace | app.js:432 | The in-place insertion sort leaves `SortSeq` of the array's old contents. |
| Sorting.InsertLast | app.js:432 | One pass moves the next element into the sorted prefix and leaves the rest of the array alone. |
| Sorting.InsertAt | app.js:432 | Inserting places the element right after the last earlier element whose key is at least its own. |
| View.Slice | app.js:508 | `slice(start, end)` has the clamped length, and its elements are the input's from `start` on. |
| View.PageOf | app.js:506-508 | The cards of page `p`: `repos.slice((p-1)*6, (p-1)*6 + 6)`. |
| View.LoadMoreVisible | app.js:516-519 | The button stays visible unless the page's end `(p-1)*6 + 6` reaches the list's length. |
| View.Project | app.js:498-526 | What `displayProjects` writes: the page's cards, the button, `min(n, 6p)` as the featured count, the whole list's star sum and its number of distinct truthy languages. |
| View.PageOfSpec | app.js:506-508 | Page `p` has at most 6 cards, starting at offset `(p-1)*6`. It is empty exactly when that offset is past the list, and it equals `repos[min((p-1)*6, n) .. min(6p, n)]`. |
| View.LoadMoreIffNextPage | app.js:516-519 | The button is shown exactly when page `p + 1` is non-empty. It is hidden exactly when `6p >= n`. |
| View.PagesThroughPrefix | app.js:506-508 | The slices `displayProjects` takes for `currentPage` = `1..p` join to the first `min(n, 6p)` repositories, each once and in order. |
| View.PagesCoverList | app.js:506-519 | When `displayProjects` hides the button at `currentPage` = `p`, the slices it takes for pages `1..p` join to the whole list. |
| View.ProjectAggregates | app.js:522-525 | The featured count `min(n, 6p)` is the length of the slices `displayProjects` takes for pages `1..p` joined together. The star figure is the sum over the whole list, at least the page's own sum. The language count is that of the whole list. |
| View.SumStarsKeep | app.js:120-123 | Filtering never raises the star total. |
| View.LegacyRender | app.js:111-136 | What `fetchGitHubRepos` renders for one fetched page: the legacy-filtered cards, their star sum, and a button shown unless the unfiltered page has fewer than 6 repositories. |
| View.LegacyRenderSpec | app.js:111-136 | The legacy cards are a subsequence of what the current filter keeps. The button is shown exactly when a full page of 6 came back. |
| View.LegacyRenderStars | app.js:111-123 | The legacy star total is at most the fetched page's. |
| Fetch.ReposFrom | app.js:204-230 | The list the repository loader settles on from attempt `i`: the first `ok` non-empty body within the budget, else `[]`. |
| Fetch.ReposFromEmpty | app.js:204-230 | The repository loader settles on `[]` exactly when no attempt in the budget is `ok` with a non-empty list. |
| Fetch.UserFrom | app.js:37-98 | The profile the user loader settles on from attempt `i`: the first `ok` body within the budget, else `null`. |
| Fetch.UserFromNone | app.js:37-98 | The profile loader settles on `null` exactly when every attempt in the budget fails. |
| Fetch.FetchAllRepositories | app.js:204-230 | With no budget: `undefined` and no request. Otherwise: between 1 and `retries` requests, and one wait between each two of them, none after the last. Every request but the last failed; an accepted last request gives its body, else `[]`. |
| Fetch.FetchGitHubUser | app.js:37-98 | The same, with any `ok` response accepted and `null` after the last failure. |
| Theme.InitialTheme | app.js:532-533 | The stored theme if it is truthy, otherwise `dark`. |
| Theme.NextTheme | app.js:378-386 | The result is `light` or `dark`, and it is `dark` exactly when the current attribute is `light`. |
| Theme.ToggleAlternates | app.js:378-386 | After the first toggle, each toggle swaps the two themes, and two toggles restore the theme. |
| Contact.Submit | app.js:567-602 | Nothing is posted exactly when name, email or message is empty or missing; that case shows the required-fields error. Otherwise the form itself is posted. The outcome is success exactly when the POST answered `ok`, and the form is reset exactly on success. Every toast has a message. |
| Contact.SubjectIsOptional | app.js:579-581 | The subject never decides whether the form is sent nor which toast appears. |
| Session.CountsOf | app.js:468-471 | The counts table holds the list's length, and the web and api counts are at most that length. |
| Session.CountsPermutation | app.js:468-471 | Permuting the list leaves its counts table unchanged. |
| Session.FilterArray | app.js:443-465 | `web` and `api` give a fresh array. Any other filter gives the same array. Either way its contents are `filterRepositories` of the input. |
| Session.FetchPage | app.js:101-143 | What one `fetchGitHubRepos(page, filter)` call renders: nothing when the request for that page throws, else `LegacyRender` of the page it got. |
| Session.Portfolio.constructor | app.js:6-20 | The variables' initial values: page 1, filter `all`, sort `stars`, zero totals, an empty cache and zero counts. |
| Session.Portfolio.FilterProjects | app.js:146-149 | Sets the filter and page 1, changes nothing else, and renders `fetchGitHubRepos(1, filter)`. |
| Session.Portfolio.LoadMoreProjects | app.js:161-164 | Increments the page by exactly one, changes nothing else, and renders `fetchGitHubRepos(page, filter)`. |
| Session.Portfolio.ToggleTheme | app.js:378-386 | The attribute and the stored entry both become the toggled theme; nothing else changes. |
| Session.Portfolio.UpdateProjectCounts | app.js:468-471 | The counts table becomes the counts of the given list. |
| Session.Portfolio.DisplayProjects | app.js:498-526 | The projection of the list at the current page. At most 6 cards, and the star figure is the whole list's. |
| Session.Portfolio.SortProjects | app.js:479-495 | Sets the sort key and page 1. Under `web`/`api` the cache is untouched; otherwise it is sorted in place. The display is page 1 of the sorted filtered cache, and the counts invariant still holds. |
| Session.Portfolio.CacheRepositories | app.js:620-635 | Caches the list and sets the totals, the language set and the counts from it. |
| Session.Portfolio.ShowRepositories | app.js:619-637 | Also sorts the cache by stars in place, displays it at the current page, and keeps the counts invariant. |
| Session.Portfolio.Initialize | app.js:529-637 | The theme comes from storage. It fails exactly when no profile and no repositories came back. Otherwise the profile is the loader's. With no repositories nothing else changes; with some, the cache is their stable sort by stars and the display is its page. |
| Session.SortedByPermutes | app.js:429-440 | Sorting by any key, known or not, permutes the list. |
| Scenarios.ApiScenario | app.js:455-461 | `x` (JavaScript, 5 stars) and `y-api` (Python, 10 stars) under the `api` filter, sorted by stars: only `y-api` shows, the star total is 10, and there is no load-more button. |
| Scenarios.ApiScenarioFilter | app.js:455-461 | Of those two, only `y-api` passes the `api` filter. |
| Scenarios.NameWithApiIsApi | app.js:458 | A name holding lower-case `api` passes the `api` test. |
| Scenarios.ShortNameIsNotApi | app.js:456-461 | A name shorter than `api`, without topics or description, fails it. |
| Scenarios.LegacyWebIsNarrower | app.js:114-115 | A Python repository named `webapp` passes the current `web` test but not the legacy one. |
| Scenarios.ThirdAttemptSucceeds | app.js:204-230 | Two failed requests and then a non-empty list: a budget of three returns that list. |

## Left out

- DOM output: markup, `createProjectCard`, `getLanguageIcon`, toasts, button and tab classes, and `handleInitializationError`. The model returns what would be written as values (`Projection`, `LegacyPage`, `Submission`, `InitOutcome`).
- `displayProjects` returns early when the grid element is missing. The model assumes the element exists.
- The contact submit handler returns early when the form has no submit button (app.js:561-564). The model assumes the button exists.
- The grid is cleared on page 1 and appended to on later pages of `fetchGitHubRepos`. The model returns each page's cards rather than the accumulated grid.
- `fetch` and `response.json()` become parameters. The retry loops take a total function `network` from request number to outcome. `fetchGitHubRepos` takes `pages` from page number to the parsed page, `None` when it throws. The contact POST takes a `PostResult`.
- The one-second waits become a count of waits.
- `Promise.all` runs the two loaders concurrently. The model runs them one after the other. Their results do not depend on each other.
- The profile loader writes the bio and stats into the DOM. That is left out; its retry behaviour is modelled.
- `fetchGitHubRepos` is not awaited, so its render can arrive after later handlers run. The model renders at once.
- `fetchGitHubStats` (app.js:167-201) is never called, so it is not part of this model.
- `typeWriter`, `animateValue`, the scroll handlers, `scrollToTop` and the `GitHubCalendar` widget are left out: they are timers, floating point and a third-party widget.
- `localStorage` is a field (`storedTheme`) holding an optional string. The markup's initial `data-theme` is a constructor parameter.
- Text.ToLower: lower-cases ASCII letters only, not full Unicode `toLowerCase`.
- Sorting.Key: `updated_at` is an integer timestamp. Parsing date strings with `new Date` is not modelled, nor the `NaN` a malformed date would give the comparator.
- JavaScript default arguments (`sortBy = 'stars'` at app.js:429, `filter = 'all'` at app.js:101 and 443) are not modelled: the parameters are plain strings and cannot be `undefined`. Every call in the script passes an explicit value.
- Repos.Repo: numeric fields are unbounded naturals. JavaScript's floating-point numbers are not modelled.
- Fetch.FetchGitHubUser: a profile response whose DOM update throws counts as a failed attempt in the source. The model treats any `ok` response as success.
