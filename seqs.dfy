/** Sequence helpers: Python's slice `s[:n]` and "is an order-preserving selection of". */
module Seqs {

  function Min(a: int, b: int): int {
    if a <= b then a else b
  }

  /** `s[:n]`: the first `n` elements, or all of `s` when it is shorter. */
  function Take<T>(s: seq<T>, n: nat): (r: seq<T>)
    ensures |r| == Min(n, |s|)
    ensures r <= s
  {
    if |s| <= n then s else s[..n]
  }

  /** A prefix of exactly `n` elements is what `Take` returns. */
  lemma TakePrefix<T>(a: seq<T>, s: seq<T>)
    requires a <= s
    ensures Take(s, |a|) == a
  {
  }

  /** Cutting two lists at the same length keeps one a prefix of the other. */
  lemma TakeMonotone<T>(a: seq<T>, b: seq<T>, n: nat)
    requires a <= b
    ensures Take(a, n) <= Take(b, n)
  {
  }

  /** `idx` lists, in increasing order, positions of `b` that spell out `a`. */
  ghost predicate Embeds<T>(a: seq<T>, b: seq<T>, idx: seq<nat>) {
    && |idx| == |a|
    && (forall i :: 0 <= i < |idx| ==> idx[i] < |b| && b[idx[i]] == a[i])
    && (forall i, j :: 0 <= i < j < |idx| ==> idx[i] < idx[j])
  }

  /** `a` is `b` with some elements left out and the rest in their original order. */
  ghost predicate IsSubsequence<T>(a: seq<T>, b: seq<T>) {
    exists idx :: Embeds(a, b, idx)
  }

  /** Dropping the last element of `b` or keeping it at the end of `a` preserves the relation. */
  lemma SubsequenceSnoc<T>(a: seq<T>, b: seq<T>, x: T, keep: bool)
    requires IsSubsequence(a, b)
    ensures IsSubsequence(if keep then a + [x] else a, b + [x])
  {
    var idx: seq<nat> :| Embeds(a, b, idx);
    if keep {
      var idx': seq<nat> := idx + [|b|];
      assert Embeds(a + [x], b + [x], idx');
    } else {
      assert Embeds(a, b + [x], idx);
    }
  }

  /** `[f(x) for x in s if keep(x)]`, written from the end so that a loop over `s` extends it one step at a time. */
  function FilterMap<A, B>(s: seq<A>, keep: A -> bool, f: A -> B): seq<B>
    decreases |s|
  {
    if s == [] then []
    else FilterMap(s[..|s| - 1], keep, f) + (if keep(s[|s| - 1]) then [f(s[|s| - 1])] else [])
  }

  /** Where each element of the selection comes from: increasing positions of kept elements. */
  ghost function FilterMapOrigins<A, B>(s: seq<A>, keep: A -> bool, f: A -> B): (idx: seq<nat>)
    ensures |idx| == |FilterMap(s, keep, f)|
    ensures forall a :: 0 <= a < |idx| ==>
      idx[a] < |s| && keep(s[idx[a]]) && FilterMap(s, keep, f)[a] == f(s[idx[a]])
    ensures forall a, b :: 0 <= a < b < |idx| ==> idx[a] < idx[b]
    decreases |s|
  {
    if s == [] then []
    else
      var init := s[..|s| - 1];
      var rest := FilterMapOrigins(init, keep, f);
      assert forall a :: 0 <= a < |rest| ==> s[rest[a]] == init[rest[a]];
      rest + (if keep(s[|s| - 1]) then [|s| - 1] else [])
  }

  /** One more element extends the result by its image exactly when it is kept. */
  lemma FilterMapSnoc<A, B>(s: seq<A>, keep: A -> bool, f: A -> B, i: nat)
    requires i < |s|
    ensures FilterMap(s[..i + 1], keep, f) == FilterMap(s[..i], keep, f) + (if keep(s[i]) then [f(s[i])] else [])
  {
    assert s[..i + 1][..i] == s[..i];
  }

  /** What a prefix selects is a prefix of what the whole sequence selects. */
  lemma {:induction false} FilterMapPrefix<A, B>(s: seq<A>, keep: A -> bool, f: A -> B, i: nat)
    requires i <= |s|
    ensures FilterMap(s[..i], keep, f) <= FilterMap(s, keep, f)
    decreases |s|
  {
    if i < |s| {
      assert s[..|s| - 1][..i] == s[..i];
      FilterMapPrefix(s[..|s| - 1], keep, f, i);
    } else {
      assert s[..i] == s;
    }
  }

  /** Every selected element is the image of a kept element. */
  lemma FilterMapSound<A, B>(s: seq<A>, keep: A -> bool, f: A -> B)
    ensures forall y :: y in FilterMap(s, keep, f) ==> exists k :: 0 <= k < |s| && keep(s[k]) && y == f(s[k])
  {
    var idx := FilterMapOrigins(s, keep, f);
    forall y | y in FilterMap(s, keep, f) ensures exists k :: 0 <= k < |s| && keep(s[k]) && y == f(s[k]) {
      var a :| 0 <= a < |FilterMap(s, keep, f)| && FilterMap(s, keep, f)[a] == y;
      assert keep(s[idx[a]]) && y == f(s[idx[a]]);
    }
  }

  /** The loop that appends the image of every kept element and stops once `cap` are collected
      (the limit is checked after each element, as a loop with `break` does). */
  method FilterMapUpTo<A, B>(s: seq<A>, keep: A -> bool, f: A -> B, cap: nat) returns (r: seq<B>)
    requires cap > 0
    ensures r == Take(FilterMap(s, keep, f), cap)
  {
    r := [];
    var i := 0;
    while i < |s|
      invariant 0 <= i <= |s|
      invariant r == FilterMap(s[..i], keep, f)
      invariant |r| < cap
    {
      FilterMapSnoc(s, keep, f, i);
      if keep(s[i]) {
        r := r + [f(s[i])];
      }
      i := i + 1;
      if |r| >= cap {
        FilterMapPrefix(s, keep, f, i);
        TakePrefix(r, FilterMap(s, keep, f));
        return;
      }
    }
    assert s[..i] == s;
  }

  /** `[x for x in s if keep(x)]`, written from the end like `FilterMap`. */
  function Filter<T>(s: seq<T>, keep: T -> bool): (r: seq<T>)
    ensures |r| <= |s|
    decreases |s|
  {
    if s == [] then []
    else Filter(s[..|s| - 1], keep) + (if keep(s[|s| - 1]) then [s[|s| - 1]] else [])
  }

  /** An element is selected iff it occurs in `s` and is kept. */
  lemma {:induction false} FilterMembers<T>(s: seq<T>, keep: T -> bool)
    ensures forall x :: x in Filter(s, keep) <==> x in s && keep(x)
    decreases |s|
  {
    if s != [] {
      var init := s[..|s| - 1];
      FilterMembers(init, keep);
      assert s == init + [s[|s| - 1]];
    }
  }

  /** The selection keeps the original order. */
  lemma {:induction false} FilterSubsequence<T>(s: seq<T>, keep: T -> bool)
    ensures IsSubsequence(Filter(s, keep), s)
    decreases |s|
  {
    if s == [] {
      assert Embeds([], s, []);
    } else {
      var init := s[..|s| - 1];
      var x := s[|s| - 1];
      FilterSubsequence(init, keep);
      assert init + [x] == s;
      if keep(x) {
        SubsequenceSnoc(Filter(init, keep), init, x, true);
        assert Filter(s, keep) == Filter(init, keep) + [x];
      } else {
        SubsequenceSnoc(Filter(init, keep), init, x, false);
        assert Filter(s, keep) == Filter(init, keep);
      }
    }
  }

  /** What `keep` selects and what it rejects together make up `s`, occurrence by occurrence. */
  lemma {:induction false} FilterPartition<T>(s: seq<T>, keep: T -> bool, reject: T -> bool)
    requires forall x :: reject(x) == !keep(x)
    ensures multiset(Filter(s, keep)) + multiset(Filter(s, reject)) == multiset(s)
    ensures |Filter(s, keep)| + |Filter(s, reject)| == |s|
    decreases |s|
  {
    if s != [] {
      var init, x := s[..|s| - 1], s[|s| - 1];
      FilterPartition(init, keep, reject);
      assert s == init + [x];
      assert multiset(s) == multiset(init) + multiset{x};
      var k, r := Filter(init, keep), Filter(init, reject);
      if keep(x) {
        assert Filter(s, keep) == k + [x] && Filter(s, reject) == r;
        assert multiset(k + [x]) == multiset(k) + multiset{x};
      } else {
        assert Filter(s, keep) == k && Filter(s, reject) == r + [x];
        assert multiset(r + [x]) == multiset(r) + multiset{x};
      }
    }
  }

  /** Two tests that agree on the elements of `s` select the same elements. */
  lemma {:induction false} FilterCongruent<T>(s: seq<T>, p: T -> bool, q: T -> bool)
    requires forall x :: x in s ==> p(x) == q(x)
    ensures Filter(s, p) == Filter(s, q)
    decreases |s|
  {
    if s != [] {
      var init := s[..|s| - 1];
      assert forall x :: x in init ==> x in s;
      FilterCongruent(init, p, q);
    }
  }

  /** A test that keeps every element selects all of `s`. */
  lemma {:induction false} FilterAll<T>(s: seq<T>, keep: T -> bool)
    requires forall x :: x in s ==> keep(x)
    ensures Filter(s, keep) == s
    decreases |s|
  {
    if s != [] {
      var init := s[..|s| - 1];
      assert forall x :: x in init ==> x in s;
      FilterAll(init, keep);
    }
  }

  /** A test that keeps no element of `s` selects nothing. */
  lemma {:induction false} FilterNone<T>(s: seq<T>, keep: T -> bool)
    requires forall x :: x in s ==> !keep(x)
    ensures Filter(s, keep) == []
    decreases |s|
  {
    if s != [] {
      var init := s[..|s| - 1];
      assert forall x :: x in init ==> x in s;
      FilterNone(init, keep);
    }
  }
}
