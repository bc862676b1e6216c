/** Concrete lists and networks, and what the model gives for them. */
module Scenarios {
  import opened Text
  import opened Seqs
  import opened Repos
  import opened Filters
  import opened Sorting
  import opened View
  import opened Fetch

  /** A repository with only a name, a language and the two counters set. */
  function Sample(name: string, language: string, stars: nat, forks: nat): Repo
  {
    Repo(name, None, Some(language), None, stars, forks, 0, "", None, false)
  }

  /** A repository whose lower-case name is shorter than `api` and that has no topics and no
      description fails the `api` test. */
  lemma ShortNameIsNotApi(r: Repo)
    requires |r.name| < 3 && r.topics.None? && r.description.None?
    ensures !IsApi(r)
  {
  }

  /** A name holding `api` at offset `i`, in lower case, passes the `api` test. */
  lemma NameWithApiIsApi(r: Repo, i: nat)
    requires i + 3 <= |r.name| && r.name[i..i + 3] == "api"
    ensures IsApi(r)
  {
    var lower := ToLower(r.name);
    assert r.name[i] == 'a' && r.name[i + 1] == 'p' && r.name[i + 2] == 'i' by {
      assert r.name[i..i + 3][0] == r.name[i] && r.name[i..i + 3][1] == r.name[i + 1];
      assert r.name[i..i + 3][2] == r.name[i + 2];
    }
    assert lower[i..i + 3] == "api";
    ContainsIff(lower, "api");
    assert OccursAt(lower, "api", i);
  }

  /** Of `x` and `y-api`, only `y-api` passes the `api` test. */
  lemma ApiScenarioFilter(x: Repo, y: Repo)
    requires x == Sample("x", "JavaScript", 5, 1) && y == Sample("y-api", "Python", 10, 0)
    ensures FilterRepositories([x, y], "api") == [y]
  {
    ShortNameIsNotApi(x);
    NameWithApiIsApi(y, 2);
    assert [x, y][1..] == [y];
    assert Keep([x, y], IsApi) == [] + Keep([y], IsApi);
  }

  /** The `api` filter over `x` (JavaScript, 5 stars) and `y-api` (Python, 10 stars), sorted by
      stars, shows only `y-api` and a star total of 10. */
  lemma ApiScenario(x: Repo, y: Repo)
    requires x == Sample("x", "JavaScript", 5, 1) && y == Sample("y-api", "Python", 10, 0)
    ensures Project(SortedBy(FilterRepositories([x, y], "api"), "stars"), 1).cards == [y]
    ensures Project(SortedBy(FilterRepositories([x, y], "api"), "stars"), 1).stars == 10
    ensures !Project(SortedBy(FilterRepositories([x, y], "api"), "stars"), 1).loadMoreVisible
  {
    ApiScenarioFilter(x, y);
    assert SortSeq([y], Stars) == Insert([], y, Stars) == [y];
    assert PageOf([y], 1) == [y][0..1] == [y];
    assert SumStars([y]) == y.stars + SumStars([y][1..]);
  }

  /** The current `web` filter keeps a Python repository called `webapp` that the legacy one drops. */
  lemma LegacyWebIsNarrower()
    ensures var r := Sample("webapp", "Python", 0, 0);
      Matches(r, "web") && !LegacyMatches(r, "web")
  {
    assert ToLower("webapp") == "webapp";
    assert "webapp"[..3] == "web";
  }

  /** Two failed requests, then a non-empty list: a budget of three attempts returns that list. */
  lemma ThirdAttemptSucceeds(network: nat -> Attempt<seq<Repo>>)
    requires network(0).NotOk? && network(1).Threw? && ReposAccepted(network(2))
    ensures ReposFrom(network, 0, 3) == network(2).body
  {
  }
}
