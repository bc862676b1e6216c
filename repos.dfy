/** The records the page receives from its backend, and the aggregates it shows over a list of them. */
module Repos {

  /** A JSON field that may be `null` or absent. */
  datatype Option<+T> = None | Some(value: T)

  /** One element of the `/api/github/repos` response. `updated_at` is kept as an integer
      timestamp; `topics` and `description` may be missing. */
  datatype Repo = Repo(
    name: string,
    description: Option<string>,
    language: Option<string>,
    topics: Option<seq<string>>,
    stars: nat,
    forks: nat,
    updatedAt: int,
    htmlUrl: string,
    homepage: Option<string>,
    fork: bool)

  /** The `/api/github/user` response, reduced to the fields the page reads. */
  datatype User = User(
    bio: Option<string>,
    location: Option<string>,
    followers: nat,
    publicRepos: nat,
    updatedAt: int)

  /** `repos.reduce((acc, repo) => acc + repo.stargazers_count, 0)`. */
  function SumStars(repos: seq<Repo>): nat
  {
    if repos == [] then 0 else repos[0].stars + SumStars(repos[1..])
  }

  /** `repos.reduce((acc, repo) => acc + repo.forks_count, 0)`. */
  function SumForks(repos: seq<Repo>): nat
  {
    if repos == [] then 0 else repos[0].forks + SumForks(repos[1..])
  }

  /** The star total of a concatenation is the sum of the parts' totals. */
  lemma {:induction false} SumStarsAppend(a: seq<Repo>, b: seq<Repo>)
    ensures SumStars(a + b) == SumStars(a) + SumStars(b)
  {
    if a == [] {
      assert a + b == b;
    } else {
      assert (a + b)[0] == a[0] && (a + b)[1..] == a[1..] + b;
      SumStarsAppend(a[1..], b);
    }
  }

  /** The fork total of a concatenation is the sum of the parts' totals. */
  lemma {:induction false} SumForksAppend(a: seq<Repo>, b: seq<Repo>)
    ensures SumForks(a + b) == SumForks(a) + SumForks(b)
  {
    if a == [] {
      assert a + b == b;
    } else {
      assert (a + b)[0] == a[0] && (a + b)[1..] == a[1..] + b;
      SumForksAppend(a[1..], b);
    }
  }

  /** The star total of any contiguous part of a list is at most the total of the whole list. */
  lemma SumStarsSlice(repos: seq<Repo>, i: nat, j: nat)
    requires i <= j <= |repos|
    ensures SumStars(repos[i..j]) <= SumStars(repos)
  {
    assert repos == repos[..i] + repos[i..j] + repos[j..];
    SumStarsAppend(repos[..i] + repos[i..j], repos[j..]);
    SumStarsAppend(repos[..i], repos[i..j]);
  }

  /** A value counts as a language when it is present and truthy, i.e. not the empty string. */
  predicate IsLanguage(language: Option<string>)
  {
    language.Some? && language.value != ""
  }

  /** `new Set(repos.map(repo => repo.language).filter(Boolean))`. */
  function Languages(repos: seq<Repo>): (r: set<string>)
    ensures |r| <= |repos|
  {
    if repos == [] then {}
    else
      var rest := Languages(repos[1..]);
      if IsLanguage(repos[0].language) then {repos[0].language.value} + rest else rest
  }

  /** Every truthy language of the list is in the set. */
  lemma {:induction false} LanguagesComplete(repos: seq<Repo>)
    ensures forall i :: 0 <= i < |repos| && IsLanguage(repos[i].language) ==> repos[i].language.value in Languages(repos)
  {
    if repos != [] {
      LanguagesComplete(repos[1..]);
      forall i | 0 < i < |repos| ensures repos[i] == repos[1..][i - 1] {
      }
    }
  }

  /** The set holds nothing but truthy languages of the list. */
  lemma {:induction false} LanguagesSound(repos: seq<Repo>, x: string)
    requires x in Languages(repos)
    ensures exists i :: 0 <= i < |repos| && repos[i].language == Some(x) && x != ""
  {
    if x in Languages(repos[1..]) {
      LanguagesSound(repos[1..], x);
      var i :| 0 <= i < |repos[1..]| && repos[1..][i].language == Some(x) && x != "";
      assert repos[i + 1] == repos[1..][i];
    } else {
      assert repos[0].language == Some(x) && x != "";
    }
  }
}
