/** Deduplication by key, as `aggregate_jobs` does it with its `seen` set: walk the list and keep a
    member only when no member kept before it has the same key. The key is a parameter. */
module Dedup {
  import opened Seqs
  import Sorting

  /** The keys of the members of `s`. */
  function KeysOf<T(==), K(==)>(s: seq<T>, key: T -> K): set<K> {
    set j | j in s :: key(j)
  }

  predicate DistinctKeys<T(==), K(==)>(s: seq<T>, key: T -> K) {
    forall i, j :: 0 <= i < j < |s| ==> key(s[i]) != key(s[j])
  }

  /** `s[k]` is the first member of `s` with its key. */
  predicate FirstOfKey<T(==), K(==)>(s: seq<T>, k: int, key: T -> K) {
    0 <= k < |s| && forall i :: 0 <= i < k ==> key(s[i]) != key(s[k])
  }

  /** The reference deduplication: a member is kept when no member kept before it has its key. */
  function Deduplicated<T(==), K(==)>(s: seq<T>, key: T -> K): seq<T>
    decreases |s|
  {
    if s == [] then []
    else
      var d := Deduplicated(s[..|s| - 1], key);
      if key(s[|s| - 1]) in KeysOf(d, key) then d else d + [s[|s| - 1]]
  }

  lemma KeysOfSnoc<T, K>(s: seq<T>, x: T, key: T -> K)
    ensures KeysOf(s + [x], key) == KeysOf(s, key) + {key(x)}
  {
    assert forall j :: j in s + [x] <==> j in s || j == x;
  }

  /** Deduplication keeps every key that occurs. */
  lemma {:induction false} DeduplicatedKeys<T, K>(s: seq<T>, key: T -> K)
    ensures KeysOf(Deduplicated(s, key), key) == KeysOf(s, key)
    decreases |s|
  {
    if s != [] {
      var init, last := s[..|s| - 1], s[|s| - 1];
      DeduplicatedKeys(init, key);
      assert s == init + [last];
      KeysOfSnoc(init, last, key);
      KeysOfSnoc(Deduplicated(init, key), last, key);
    }
  }

  /** After deduplication no two members share a key. */
  lemma {:induction false} DeduplicatedDistinct<T, K>(s: seq<T>, key: T -> K)
    ensures DistinctKeys(Deduplicated(s, key), key)
    decreases |s|
  {
    if s != [] {
      var init, last := s[..|s| - 1], s[|s| - 1];
      DeduplicatedDistinct(init, key);
      var d := Deduplicated(init, key);
      if key(last) !in KeysOf(d, key) {
        forall i | 0 <= i < |d| ensures key(d[i]) != key(last) {
          assert d[i] in d;
        }
      }
    }
  }

  /** When the last member is the first of its key, no earlier member has that key. */
  lemma LastFirstUnseen<T, K>(s: seq<T>, key: T -> K)
    requires FirstOfKey(s, |s| - 1, key)
    ensures key(s[|s| - 1]) !in KeysOf(s[..|s| - 1], key)
  {
    var init := s[..|s| - 1];
    forall j | j in init ensures key(j) != key(s[|s| - 1]) {
      var i :| 0 <= i < |init| && init[i] == j;
      assert key(s[i]) != key(s[|s| - 1]);
    }
  }

  /** Being first of its key does not depend on what comes later. */
  lemma FirstOfKeyInit<T, K>(s: seq<T>, k: int, key: T -> K)
    requires FirstOfKey(s, k, key) && k < |s| - 1
    ensures FirstOfKey(s[..|s| - 1], k, key)
  {
  }

  /** A last member that is first of its key is kept. */
  lemma LastKept<T, K>(s: seq<T>, key: T -> K)
    requires FirstOfKey(s, |s| - 1, key)
    ensures s[|s| - 1] in Deduplicated(s, key)
  {
    LastFirstUnseen(s, key);
    DeduplicatedKeys(s[..|s| - 1], key);
  }

  /** Deduplication keeps the first member of every key. */
  lemma {:induction false} DeduplicatedKeepsFirst<T, K>(s: seq<T>, key: T -> K)
    ensures forall k :: FirstOfKey(s, k, key) ==> s[k] in Deduplicated(s, key)
    decreases |s|
  {
    if s != [] {
      var init := s[..|s| - 1];
      DeduplicatedKeepsFirst(init, key);
      var d, full := Deduplicated(init, key), Deduplicated(s, key);
      assert d <= full;
      forall k | FirstOfKey(s, k, key) ensures s[k] in full {
        if k < |init| {
          FirstOfKeyInit(s, k, key);
          assert s[k] == init[k];
        } else {
          LastKept(s, key);
        }
      }
    }
  }

  /** Deduplication keeps nothing but first members of their keys. */
  lemma {:induction false} DeduplicatedOnlyFirst<T, K>(s: seq<T>, key: T -> K)
    ensures forall x :: x in Deduplicated(s, key) ==> exists k :: FirstOfKey(s, k, key) && s[k] == x
    decreases |s|
  {
    if s != [] {
      var init, last := s[..|s| - 1], s[|s| - 1];
      DeduplicatedOnlyFirst(init, key);
      DeduplicatedKeys(init, key);
      var d := Deduplicated(init, key);
      forall x | x in Deduplicated(s, key) ensures exists k :: FirstOfKey(s, k, key) && s[k] == x {
        if x in d {
          var k :| FirstOfKey(init, k, key) && init[k] == x;
          assert FirstOfKey(s, k, key) && s[k] == x;
        } else {
          assert x == last && key(last) !in KeysOf(init, key);
          forall i | 0 <= i < |init| ensures key(s[i]) != key(last) {
            assert init[i] in init;
          }
          assert FirstOfKey(s, |s| - 1, key);
        }
      }
    }
  }

  /** Deduplication keeps the relative order of the members it keeps. */
  lemma {:induction false} DeduplicatedSubsequence<T, K>(s: seq<T>, key: T -> K)
    ensures IsSubsequence(Deduplicated(s, key), s)
    decreases |s|
  {
    if s == [] {
      assert Embeds([], s, []);
    } else {
      var init, last := s[..|s| - 1], s[|s| - 1];
      DeduplicatedSubsequence(init, key);
      SubsequenceSnoc(Deduplicated(init, key), init, last, key(last) !in KeysOf(Deduplicated(init, key), key));
      assert init + [last] == s;
    }
  }

  /** A list whose keys are already distinct is left unchanged. */
  lemma {:induction false} DistinctUnchanged<T, K>(s: seq<T>, key: T -> K)
    requires DistinctKeys(s, key)
    ensures Deduplicated(s, key) == s
    decreases |s|
  {
    if s != [] {
      var init, last := s[..|s| - 1], s[|s| - 1];
      DistinctUnchanged(init, key);
      forall j | j in init ensures key(j) != key(last) {
        var i :| 0 <= i < |init| && init[i] == j;
        assert key(s[i]) != key(s[|s| - 1]);
      }
      assert key(last) !in KeysOf(init, key);
    }
  }

  /** Deduplicating twice is the same as deduplicating once. */
  lemma DeduplicatedIdempotent<T, K>(s: seq<T>, key: T -> K)
    ensures Deduplicated(Deduplicated(s, key), key) == Deduplicated(s, key)
  {
    DeduplicatedDistinct(s, key);
    DistinctUnchanged(Deduplicated(s, key), key);
  }

  lemma {:induction false} InsertDistinct<T, K>(t: seq<T>, x: T, key: T -> K, score: T -> real)
    requires DistinctKeys(t, key) && key(x) !in KeysOf(t, key)
    ensures DistinctKeys(Sorting.Insert(t, x, score), key)
    ensures KeysOf(Sorting.Insert(t, x, score), key) == KeysOf(t, key) + {key(x)}
    decreases |t|
  {
    if t == [] || score(t[|t| - 1]) >= score(x) {
      KeysOfSnoc(t, x, key);
      forall i | 0 <= i < |t| ensures key(t[i]) != key(x) {
        assert t[i] in t;
      }
    } else {
      var init, last := t[..|t| - 1], t[|t| - 1];
      assert t == init + [last];
      KeysOfSnoc(init, last, key);
      forall i | 0 <= i < |init| ensures key(init[i]) != key(last) {
        assert key(t[i]) != key(t[|t| - 1]);
      }
      InsertDistinct(init, x, key, score);
      var r := Sorting.Insert(init, x, score);
      assert key(last) !in KeysOf(r, key);
      KeysOfSnoc(r, last, key);
      forall i | 0 <= i < |r| ensures key(r[i]) != key(last) {
        assert r[i] in r;
      }
    }
  }

  /** Sorting a list with distinct keys keeps them distinct. */
  lemma {:induction false} SortKeepsDistinct<T, K>(s: seq<T>, key: T -> K, score: T -> real)
    requires DistinctKeys(s, key)
    ensures DistinctKeys(Sorting.SortDesc(s, score), key)
    ensures KeysOf(Sorting.SortDesc(s, score), key) == KeysOf(s, key)
    decreases |s|
  {
    if s != [] {
      var init, last := s[..|s| - 1], s[|s| - 1];
      assert s == init + [last];
      KeysOfSnoc(init, last, key);
      SortKeepsDistinct(init, key, score);
      forall j | j in init ensures key(j) != key(last) {
        var i :| 0 <= i < |init| && init[i] == j;
        assert key(s[i]) != key(s[|s| - 1]);
      }
      assert key(last) !in KeysOf(init, key);
      InsertDistinct(Sorting.SortDesc(init, score), last, key, score);
    }
  }
}
