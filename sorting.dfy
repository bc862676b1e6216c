/** `sortRepositories`: a stable sort, in place, descending by stars, last update or forks. */
module Sorting {
  import opened Seqs
  import opened Repos

  /** The three keys `sortRepositories` knows. */
  datatype SortKey = Stars | Recent | Forks

  /** The `case` labels of `sortRepositories`; any other value takes the `default` branch. */
  function SortKeyOf(sortBy: string): (k: Option<SortKey>)
    ensures k == Some(Stars) <==> sortBy == "stars"
    ensures k == Some(Recent) <==> sortBy == "recent"
    ensures k == Some(Forks) <==> sortBy == "forks"
  {
    if sortBy == "stars" then Some(Stars)
    else if sortBy == "recent" then Some(Recent)
    else if sortBy == "forks" then Some(Forks)
    else None
  }

  /** The value a comparator subtracts: `stargazers_count`, `updated_at` or `forks_count`. */
  function Key(r: Repo, k: SortKey): int
  {
    match k
    case Stars => r.stars
    case Recent => r.updatedAt
    case Forks => r.forks
  }

  /** The chosen key never increases from left to right. */
  ghost predicate Sorted(s: seq<Repo>, k: SortKey)
  {
    forall i, j :: 0 <= i < j < |s| ==> Key(s[j], k) <= Key(s[i], k)
  }

  /** Places `x`, which came after every element of `t` in the input, behind every element of `t`
      whose key is at least its own: a comparator `b.key - a.key` never moves it before those. */
  function Insert(t: seq<Repo>, x: Repo, k: SortKey): (r: seq<Repo>)
    ensures |r| == |t| + 1
    decreases |t|
  {
    if t == [] then [x]
    else if Key(x, k) <= Key(t[|t| - 1], k) then t + [x]
    else Insert(t[..|t| - 1], x, k) + [t[|t| - 1]]
  }

  /** Inserting adds exactly one copy of `x`. */
  lemma {:induction false} InsertMultiset(t: seq<Repo>, x: Repo, k: SortKey)
    ensures multiset(Insert(t, x, k)) == multiset(t) + multiset{x}
    decreases |t|
  {
    if t != [] && Key(x, k) > Key(t[|t| - 1], k) {
      assert t == t[..|t| - 1] + [t[|t| - 1]];
      InsertMultiset(t[..|t| - 1], x, k);
    }
  }

  /** What a stable descending sort produces: each element in turn inserted into the sorted prefix. */
  function SortSeq(s: seq<Repo>, k: SortKey): (r: seq<Repo>)
    ensures |r| == |s|
    decreases |s|
  {
    if s == [] then [] else Insert(SortSeq(s[..|s| - 1], k), s[|s| - 1], k)
  }

  /** The sort is a permutation of its input. */
  lemma {:induction false} SortSeqMultiset(s: seq<Repo>, k: SortKey)
    ensures multiset(SortSeq(s, k)) == multiset(s)
    decreases |s|
  {
    if s != [] {
      assert s == s[..|s| - 1] + [s[|s| - 1]];
      SortSeqMultiset(s[..|s| - 1], k);
      InsertMultiset(SortSeq(s[..|s| - 1], k), s[|s| - 1], k);
    }
  }

  /** A lower bound on the keys of `t` and of `x` bounds every key after the insertion. */
  lemma {:induction false} InsertBound(t: seq<Repo>, x: Repo, k: SortKey, b: int)
    requires forall i :: 0 <= i < |t| ==> b <= Key(t[i], k)
    requires b <= Key(x, k)
    ensures forall i :: 0 <= i < |Insert(t, x, k)| ==> b <= Key(Insert(t, x, k)[i], k)
    decreases |t|
  {
    if t != [] && Key(x, k) > Key(t[|t| - 1], k) {
      InsertBound(t[..|t| - 1], x, k, b);
    }
  }

  /** Dropping the last element keeps a list sorted. */
  lemma SortedInit(s: seq<Repo>, k: SortKey)
    requires s != [] && Sorted(s, k)
    ensures Sorted(s[..|s| - 1], k)
  {
  }

  /** Inserting into a sorted list keeps it sorted. */
  lemma {:induction false} InsertSorted(t: seq<Repo>, x: Repo, k: SortKey)
    requires Sorted(t, k)
    ensures Sorted(Insert(t, x, k), k)
    decreases |t|
  {
    if t != [] && Key(t[|t| - 1], k) < Key(x, k) {
      var init, last := t[..|t| - 1], t[|t| - 1];
      SortedInit(t, k);
      InsertSorted(init, x, k);
      InsertBound(init, x, k, Key(last, k));
    }
  }

  /** The sort orders the list by the chosen key, descending. */
  lemma {:induction false} SortSeqSorted(s: seq<Repo>, k: SortKey)
    ensures Sorted(SortSeq(s, k), k)
    decreases |s|
  {
    if s != [] {
      SortSeqSorted(s[..|s| - 1], k);
      InsertSorted(SortSeq(s[..|s| - 1], k), s[|s| - 1], k);
    }
  }

  /** The test a stability statement filters by: the key equals `v`. */
  function HasKey(k: SortKey, v: int): Repo -> bool
  {
    (r: Repo) => Key(r, k) == v
  }

  /** Inserting `x` puts it after every element with the same key. */
  lemma {:induction false} InsertStable(t: seq<Repo>, x: Repo, k: SortKey, v: int)
    ensures Keep(Insert(t, x, k), HasKey(k, v)) == Keep(t, HasKey(k, v)) + Keep([x], HasKey(k, v))
    decreases |t|
  {
    var p := HasKey(k, v);
    if t == [] {
      assert Insert(t, x, k) == [] + [x];
      KeepAppend([], [x], p);
    } else if Key(x, k) <= Key(t[|t| - 1], k) {
      KeepAppend(t, [x], p);
    } else {
      var init, last := t[..|t| - 1], t[|t| - 1];
      var u := Insert(init, x, k);
      assert t == init + [last] && Insert(t, x, k) == u + [last];
      InsertStable(init, x, k, v);
      // `x` and `last` have different keys, so at most one of them has key `v`
      assert !(p(x) && p(last));
      KeepSwapLast(u, init, x, last, p);
    }
  }

  /** The sort is stable: the repositories sharing any one key value keep their input order. */
  lemma {:induction false} SortSeqStable(s: seq<Repo>, k: SortKey, v: int)
    ensures Keep(SortSeq(s, k), HasKey(k, v)) == Keep(s, HasKey(k, v))
    decreases |s|
  {
    if s != [] {
      var init, last := s[..|s| - 1], s[|s| - 1];
      assert s == init + [last];
      SortSeqStable(init, k, v);
      InsertStable(SortSeq(init, k), last, k, v);
      KeepAppend(init, [last], HasKey(k, v));
    }
  }

  /** A list already in order comes back unchanged, so sorting twice is sorting once. */
  lemma {:induction false} SortSeqOfSorted(s: seq<Repo>, k: SortKey)
    requires Sorted(s, k)
    ensures SortSeq(s, k) == s
    decreases |s|
  {
    if s != [] {
      var init, last := s[..|s| - 1], s[|s| - 1];
      SortedInit(s, k);
      SortSeqOfSorted(init, k);
      if |init| > 0 {
        assert Key(last, k) <= Key(init[|init| - 1], k);
      }
      assert s == init + [last];
    }
  }

  /** Sorting is idempotent. */
  lemma SortSeqIdempotent(s: seq<Repo>, k: SortKey)
    ensures SortSeq(SortSeq(s, k), k) == SortSeq(s, k)
  {
    SortSeqSorted(s, k);
    SortSeqOfSorted(SortSeq(s, k), k);
  }

  /** What `sortRepositories(repos, sortBy)` leaves in `repos`. */
  function SortedBy(s: seq<Repo>, sortBy: string): seq<Repo>
  {
    match SortKeyOf(sortBy)
    case Some(k) => SortSeq(s, k)
    case None => s
  }

  /** `sortRepositories(repos, sortBy)`: sorts `repos` in place and returns that same array;
      an unknown key leaves it alone. */
  method SortRepositories(repos: array<Repo>, sortBy: string) returns (r: array<Repo>)
    modifies repos
    ensures r == repos
    ensures repos[..] == SortedBy(old(repos[..]), sortBy)
  {
    r := repos;
    match SortKeyOf(sortBy)
    case Some(k) => SortInPlace(repos, k);
    case None =>
  }

  /** Stable insertion sort of `a`, descending by `k`. */
  method SortInPlace(a: array<Repo>, k: SortKey)
    modifies a
    ensures a[..] == SortSeq(old(a[..]), k)
  {
    ghost var s0 := a[..];
    var i := 0;
    while i < a.Length
      invariant 0 <= i <= a.Length
      invariant a[..i] == SortSeq(s0[..i], k)
      invariant a[i..] == s0[i..]
    {
      SortSeqStep(s0, i, k);
      assert a[i] == a[i..][0] == s0[i];
      assert a[i + 1..] == a[i..][1..] == s0[i + 1..];
      InsertLast(a, i, k);
      i := i + 1;
    }
    assert a[..] == a[..a.Length] && s0 == s0[..a.Length];
  }

  /** Sorting one more element of `s` inserts it into the sorted prefix. */
  lemma SortSeqStep(s: seq<Repo>, i: nat, k: SortKey)
    requires i < |s|
    ensures SortSeq(s[..i + 1], k) == Insert(SortSeq(s[..i], k), s[i], k)
  {
    assert s[..i + 1][..i] == s[..i] && s[..i + 1][i] == s[i];
  }

  /** One step of the insertion sort: moves `a[i]` into the sorted prefix `a[..i]`. */
  method InsertLast(a: array<Repo>, i: nat, k: SortKey)
    requires i < a.Length
    modifies a
    ensures a[..i + 1] == Insert(old(a[..i]), old(a[i]), k)
    ensures a[i + 1..] == old(a[i + 1..])
  {
    ghost var p, rest := a[..i], a[i + 1..];
    var x := a[i];
    assert a[..] == p[..i] + [x] + p[i..] + rest;
    var j := i;
    // `a` is `p` with a hole at `j`, followed by the untouched tail
    while j > 0 && Key(x, k) > Key(a[j - 1], k)
      invariant 0 <= j <= i
      invariant a[..] == p[..j] + [a[j]] + p[j..] + rest
      invariant forall m :: j <= m < i ==> Key(x, k) > Key(p[m], k)
    {
      HoleShift(p, j, a[j], rest);
      a[j] := a[j - 1];
      j := j - 1;
    }
    if j > 0 {
      HoleShift(p, j, a[j], rest);
    }
    HoleFill(p, j, a[j], x, rest);
    a[j] := x;
    InsertAt(p, j, x, k);
  }

  /** Moving the hole at `j` one place left copies `p[j - 1]` into it. */
  lemma HoleShift(p: seq<Repo>, j: nat, h: Repo, rest: seq<Repo>)
    requires 0 < j <= |p|
    ensures (p[..j] + [h] + p[j..] + rest)[j - 1] == p[j - 1]
    ensures (p[..j] + [h] + p[j..] + rest)[j := p[j - 1]] == p[..j - 1] + [p[j - 1]] + p[j - 1..] + rest
  {
  }

  /** Filling the hole at `j` with `x` gives `p` with `x` inserted at `j`, then the tail. */
  lemma HoleFill(p: seq<Repo>, j: nat, h: Repo, x: Repo, rest: seq<Repo>)
    requires j <= |p|
    ensures (p[..j] + [h] + p[j..] + rest)[j := x][..|p| + 1] == p[..j] + [x] + p[j..]
    ensures (p[..j] + [h] + p[j..] + rest)[j := x][|p| + 1..] == rest
  {
  }

  /** `Insert` puts `x` right after the last element whose key is at least its own. */
  lemma {:induction false} InsertAt(p: seq<Repo>, j: nat, x: Repo, k: SortKey)
    requires j <= |p|
    requires forall m :: j <= m < |p| ==> Key(x, k) > Key(p[m], k)
    requires j == 0 || Key(x, k) <= Key(p[j - 1], k)
    ensures Insert(p, x, k) == p[..j] + [x] + p[j..]
    decreases |p|
  {
    if j < |p| {
      var init, last := p[..|p| - 1], p[|p| - 1];
      assert Key(x, k) > Key(last, k);
      assert Insert(p, x, k) == Insert(init, x, k) + [last];
      InsertAt(init, j, x, k);
      assert init[..j] == p[..j];
      assert init[j..] + [last] == p[j..];
    } else {
      assert p[..j] == p && p[j..] == [];
    }
  }
}
