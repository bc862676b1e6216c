/** `Array.prototype.filter` on values, and what it means for a result to be an order-preserving
    subsequence of its input. */
module Seqs {

  /** `s.filter(p)`: the elements of `s` that satisfy `p`, in their original order. */
  function Keep<T>(s: seq<T>, p: T -> bool): (r: seq<T>)
    ensures |r| <= |s|
  {
    if s == [] then [] else (if p(s[0]) then [s[0]] else []) + Keep(s[1..], p)
  }

  /** The result holds only elements of `s` that satisfy `p`, and every such element. */
  lemma {:induction false} KeepMembers<T>(s: seq<T>, p: T -> bool)
    ensures forall i :: 0 <= i < |Keep(s, p)| ==> Keep(s, p)[i] in s && p(Keep(s, p)[i])
    ensures forall i :: 0 <= i < |s| && p(s[i]) ==> s[i] in Keep(s, p)
  {
    if s != [] {
      KeepMembers(s[1..], p);
      var head := if p(s[0]) then [s[0]] else [];
      assert Keep(s, p) == head + Keep(s[1..], p);
      forall i | 0 <= i < |s| && p(s[i]) ensures s[i] in Keep(s, p) {
        if i > 0 {
          assert s[i] == s[1..][i - 1];
        }
      }
    }
  }

  /** `r` can be obtained from `s` by deleting elements, without reordering the rest. */
  ghost predicate IsSubsequence<T>(r: seq<T>, s: seq<T>)
    decreases |s|
  {
    if r == [] then true
    else if s == [] then false
    else (r[0] == s[0] && IsSubsequence(r[1..], s[1..])) || IsSubsequence(r, s[1..])
  }

  /** Filtering keeps the relative order of the elements it keeps. */
  lemma {:induction false} KeepIsSubsequence<T>(s: seq<T>, p: T -> bool)
    ensures IsSubsequence(Keep(s, p), s)
  {
    if s != [] {
      KeepIsSubsequence(s[1..], p);
      var r := Keep(s, p);
      if p(s[0]) {
        assert r[0] == s[0] && r[1..] == Keep(s[1..], p);
      } else {
        assert r == Keep(s[1..], p);
      }
    }
  }

  /** Filtering keeps every copy of a matching element and no copy of any other one. */
  lemma {:induction false} KeepMultiset<T>(s: seq<T>, p: T -> bool, x: T)
    ensures multiset(Keep(s, p))[x] == if p(x) then multiset(s)[x] else 0
  {
    if s != [] {
      KeepMultiset(s[1..], p, x);
      assert s == [s[0]] + s[1..];
    }
  }

  /** Filtering distributes over concatenation. */
  lemma {:induction false} KeepAppend<T>(a: seq<T>, b: seq<T>, p: T -> bool)
    ensures Keep(a + b, p) == Keep(a, p) + Keep(b, p)
  {
    if a == [] {
      assert a + b == b;
    } else {
      var head := if p(a[0]) then [a[0]] else [];
      assert (a + b)[0] == a[0] && (a + b)[1..] == a[1..] + b;
      assert Keep(a + b, p) == head + Keep(a[1..] + b, p);
      KeepAppend(a[1..], b, p);
      assert Keep(a, p) == head + Keep(a[1..], p);
    }
  }

  /** Permuting the input permutes the result of a filter, so its length does not change. */
  lemma KeepPermutation<T(!new)>(a: seq<T>, b: seq<T>, p: T -> bool)
    requires multiset(a) == multiset(b)
    ensures multiset(Keep(a, p)) == multiset(Keep(b, p))
    ensures |Keep(a, p)| == |Keep(b, p)|
  {
    var ka, kb := multiset(Keep(a, p)), multiset(Keep(b, p));
    forall x ensures ka[x] == kb[x] {
      KeepMultiset(a, p, x);
      KeepMultiset(b, p, x);
      assert multiset(a)[x] == multiset(b)[x];
    }
    assert ka == kb;
    assert |multiset(Keep(a, p))| == |Keep(a, p)|;
    assert |multiset(Keep(b, p))| == |Keep(b, p)|;
  }

  /** Prepending an element to the longer sequence keeps a subsequence a subsequence. */
  lemma SubsequenceCons<T>(r: seq<T>, x: T, s: seq<T>)
    requires IsSubsequence(r, s)
    ensures IsSubsequence(r, [x] + s)
  {
    assert ([x] + s)[1..] == s;
  }

  /** A filter whose predicate is implied by another one's keeps a subsequence of what the other keeps. */
  lemma {:induction false} KeepStronger<T>(s: seq<T>, p: T -> bool, q: T -> bool)
    requires forall i :: 0 <= i < |s| ==> p(s[i]) ==> q(s[i])
    ensures IsSubsequence(Keep(s, p), Keep(s, q))
  {
    if s != [] {
      KeepStronger(s[1..], p, q);
      var rp, rq := Keep(s[1..], p), Keep(s[1..], q);
      if p(s[0]) {
        var l := [s[0]] + rp;
        assert Keep(s, p) == l && Keep(s, q) == [s[0]] + rq;
        assert l[0] == ([s[0]] + rq)[0] && l[1..] == rp && ([s[0]] + rq)[1..] == rq;
      } else if q(s[0]) {
        assert Keep(s, p) == rp && Keep(s, q) == [s[0]] + rq;
        SubsequenceCons(rp, s[0], rq);
      } else {
        assert Keep(s, p) == rp && Keep(s, q) == rq;
      }
    }
  }

  /** If `u` filters like `init` followed by `x`, and `x` and `last` are not both kept, then
      `u + [last]` filters like `init + [last]` followed by `x`. */
  lemma KeepSwapLast<T>(u: seq<T>, init: seq<T>, x: T, last: T, p: T -> bool)
    requires Keep(u, p) == Keep(init, p) + Keep([x], p)
    requires !(p(x) && p(last))
    ensures Keep(u + [last], p) == Keep(init + [last], p) + Keep([x], p)
  {
    KeepAppend(u, [last], p);
    KeepAppend(init, [last], p);
    KeepSingleton(x, p);
    KeepSingleton(last, p);
    if p(x) {
      assert Keep([last], p) == [];
    } else {
      assert Keep([x], p) == [];
    }
  }

  /** Every sequence is a subsequence of itself. */
  lemma {:induction false} SubsequenceRefl<T>(s: seq<T>)
    ensures IsSubsequence(s, s)
  {
    if s != [] {
      SubsequenceRefl(s[1..]);
    }
  }

  /** Filtering a one-element sequence. */
  lemma KeepSingleton<T>(x: T, p: T -> bool)
    ensures Keep([x], p) == if p(x) then [x] else []
  {
    assert [x][1..] == [];
  }
}
