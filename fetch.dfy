/** The bounded retry loops of `fetchAllRepositories` and `fetchGitHubUser`. The network is a
    parameter: `network(i)` is what the `i`-th request (counted from 0) turns out to be. */
module Fetch {
  import opened Repos

  /** One request: a response with `ok` set and its parsed body, a response whose `ok` is false,
      or an exception from `fetch` or `response.json()`. */
  datatype Attempt<T> = Ok(body: T) | NotOk(status: int) | Threw(message: string)

  /** What an `async` function hands back: a value, or `undefined` when it fell off its end. */
  datatype Returned<T> = Undefined | Returned(value: T)

  /** An attempt `fetchAllRepositories` returns: `ok` and a non-empty list
      (an empty list raises 'No repositories found'). */
  predicate ReposAccepted(a: Attempt<seq<Repo>>)
  {
    a.Ok? && |a.body| != 0
  }

  /** An attempt `fetchGitHubUser` returns: any `ok` response. */
  predicate UserAccepted(a: Attempt<User>)
  {
    a.Ok?
  }

  /** The list `fetchAllRepositories` settles on when attempts `i..retries - 1` remain. */
  function ReposFrom(network: nat -> Attempt<seq<Repo>>, i: nat, retries: int): seq<Repo>
    requires i < retries
    decreases retries - i
  {
    if ReposAccepted(network(i)) then network(i).body
    else if i == retries - 1 then []
    else ReposFrom(network, i + 1, retries)
  }

  /** The loader gives up with `[]` exactly when no attempt within the budget is accepted. */
  lemma {:induction false} ReposFromEmpty(network: nat -> Attempt<seq<Repo>>, i: nat, retries: int)
    requires i < retries
    ensures ReposFrom(network, i, retries) == [] <==> forall j :: i <= j < retries ==> !ReposAccepted(network(j))
    decreases retries - i
  {
    if !ReposAccepted(network(i)) && i < retries - 1 {
      ReposFromEmpty(network, i + 1, retries);
    }
  }

  /** The profile `fetchGitHubUser` settles on when attempts `i..retries - 1` remain. */
  function UserFrom(network: nat -> Attempt<User>, i: nat, retries: int): Option<User>
    requires i < retries
    decreases retries - i
  {
    if UserAccepted(network(i)) then Some(network(i).body)
    else if i == retries - 1 then None
    else UserFrom(network, i + 1, retries)
  }

  /** The loader gives up with `null` exactly when every attempt within the budget fails. */
  lemma {:induction false} UserFromNone(network: nat -> Attempt<User>, i: nat, retries: int)
    requires i < retries
    ensures UserFrom(network, i, retries) == None <==> forall j :: i <= j < retries ==> !UserAccepted(network(j))
    decreases retries - i
  {
    if !UserAccepted(network(i)) && i < retries - 1 {
      UserFromNone(network, i + 1, retries);
    }
  }

  /** `fetchAllRepositories(retries)`. Besides the result it reports how many requests it made and
      how many one-second waits it slept. */
  method FetchAllRepositories(network: nat -> Attempt<seq<Repo>>, retries: int)
    returns (result: Returned<seq<Repo>>, requests: nat, waits: nat)
    ensures retries <= 0 ==> result == Undefined && requests == 0 && waits == 0
    ensures retries > 0 ==> 1 <= requests <= retries && waits == requests - 1
    ensures forall i :: 0 <= i < requests - 1 ==> !ReposAccepted(network(i))
    ensures retries > 0 && ReposAccepted(network(requests - 1)) ==> result == Returned(network(requests - 1).body)
    ensures retries > 0 && !ReposAccepted(network(requests - 1)) ==> requests == retries && result == Returned([])
    ensures retries > 0 ==> result == Returned(ReposFrom(network, 0, retries))
  {
    requests, waits := 0, 0;
    var i := 0;
    while i < retries
      invariant 0 <= i && (i == 0 || i < retries) && requests == i && waits == i
      invariant forall j :: 0 <= j < i ==> !ReposAccepted(network(j))
      invariant i < retries ==> ReposFrom(network, 0, retries) == ReposFrom(network, i, retries)
    {
      var response := network(i);
      requests := requests + 1;
      if ReposAccepted(response) {
        return Returned(response.body), requests, waits;
      }
      if i == retries - 1 {
        return Returned([]), requests, waits;
      }
      waits := waits + 1;
      i := i + 1;
    }
    result := Undefined;
  }

  /** `fetchGitHubUser(retries)`: `Returned(None)` is its `null`. */
  method FetchGitHubUser(network: nat -> Attempt<User>, retries: int)
    returns (result: Returned<Option<User>>, requests: nat, waits: nat)
    ensures retries <= 0 ==> result == Undefined && requests == 0 && waits == 0
    ensures retries > 0 ==> 1 <= requests <= retries && waits == requests - 1
    ensures forall i :: 0 <= i < requests - 1 ==> !UserAccepted(network(i))
    ensures retries > 0 && UserAccepted(network(requests - 1)) ==> result == Returned(Some(network(requests - 1).body))
    ensures retries > 0 && !UserAccepted(network(requests - 1)) ==> requests == retries && result == Returned(None)
    ensures retries > 0 ==> result == Returned(UserFrom(network, 0, retries))
  {
    requests, waits := 0, 0;
    var i := 0;
    while i < retries
      invariant 0 <= i && (i == 0 || i < retries) && requests == i && waits == i
      invariant forall j :: 0 <= j < i ==> !UserAccepted(network(j))
      invariant i < retries ==> UserFrom(network, 0, retries) == UserFrom(network, i, retries)
    {
      var response := network(i);
      requests := requests + 1;
      if UserAccepted(response) {
        return Returned(Some(response.body)), requests, waits;
      }
      if i == retries - 1 {
        return Returned(None), requests, waits;
      }
      waits := waits + 1;
      i := i + 1;
    }
    result := Undefined;
  }
}
