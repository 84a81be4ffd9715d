/** Sequence helpers: Python dict key order, `results[:k]`, and counting. */
module Sequences {

  predicate Distinct<T(==)>(s: seq<T>) {
    forall i, j | 0 <= i < j < |s| :: s[i] != s[j]
  }

  /** The key order of a Python dict after `d[k] = v`: a new key goes to the
      end, an existing key keeps its place. */
  function Insert<T(==,!new)>(keys: seq<T>, k: T): (r: seq<T>)
    ensures Distinct(keys) ==> Distinct(r)
    ensures forall x :: x in r <==> x in keys || x == k
    ensures IsPrefix(keys, r)
  {
    if k in keys then keys else keys + [k]
  }

  /** The key order after `d[k] = v` for every `k` of `ks`, in order. */
  function InsertAll<T(==,!new)>(keys: seq<T>, ks: seq<T>): (r: seq<T>)
    ensures Distinct(keys) ==> Distinct(r)
    ensures forall x :: x in r <==> x in keys || x in ks
    ensures IsPrefix(keys, r)
    decreases |ks|
  {
    if ks == [] then keys else InsertAll(Insert(keys, ks[0]), ks[1..])
  }

  /** Assigning keys that are all new, and pairwise different, appends them in
      order: a dict built from distinct keys lists them as they were added. */
  lemma {:induction false} InsertAllFresh<T(!new)>(keys: seq<T>, ks: seq<T>)
    requires Distinct(keys + ks)
    ensures InsertAll(keys, ks) == keys + ks
    decreases |ks|
  {
    if ks != [] {
      assert ks[0] == (keys + ks)[|keys|];
      assert ks[0] !in keys by {
        forall i | 0 <= i < |keys| ensures keys[i] != ks[0] {
          assert keys[i] == (keys + ks)[i];
        }
      }
      assert keys + ks == (keys + [ks[0]]) + ks[1..];
      InsertAllFresh(keys + [ks[0]], ks[1..]);
    }
  }

  /** `a` is an initial part of `b`. */
  predicate IsPrefix<T(==)>(a: seq<T>, b: seq<T>) {
    |a| <= |b| && b[..|a|] == a
  }

  lemma PrefixTransitive<T>(a: seq<T>, b: seq<T>, c: seq<T>)
    requires IsPrefix(a, b) && IsPrefix(b, c)
    ensures IsPrefix(a, c)
  {
    assert c[..|a|] == c[..|b|][..|a|];
  }

  /** `s[:k]`: the first `k` elements, or all of them when there are fewer. */
  function Take<T>(s: seq<T>, k: nat): (r: seq<T>)
    ensures |r| == if |s| <= k then |s| else k
    ensures r == s[..|r|]
  {
    if |s| <= k then s else s[..k]
  }
}
