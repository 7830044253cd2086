/** Selecting elements of a sequence by a key computed for each of them. */
module Sequences {

  /** `parts` is `whole` with some elements left out, the rest in their order. */
  predicate Subsequence<T(==)>(parts: seq<T>, whole: seq<T>)
    decreases |whole|
  {
    if whole == [] then parts == []
    else
      Subsequence(parts, whole[..|whole| - 1]) ||
      (parts != [] && parts[|parts| - 1] == whole[|whole| - 1] &&
       Subsequence(parts[..|parts| - 1], whole[..|whole| - 1]))
  }

  /** The elements of `xs` whose key, at the same position of `keys`, equals `key`, in order. */
  function Select<T, K(==)>(xs: seq<T>, keys: seq<K>, key: K): (r: seq<T>)
    requires |keys| == |xs|
    ensures |r| <= |xs|
  {
    if xs == [] then []
    else
      var found := Select(xs[..|xs| - 1], keys[..|keys| - 1], key);
      if keys[|keys| - 1] == key then found + [xs[|xs| - 1]] else found
  }

  /**
   * Select keeps, in order, exactly the elements whose key matches: each
   * element it keeps sits at a matching position, and an element all of
   * whose positions match is kept as often as it occurs.
   */
  lemma {:induction false} SelectKeepsMatches<T, K>(xs: seq<T>, keys: seq<K>, key: K)
    requires |keys| == |xs|
    ensures var r := Select(xs, keys, key);
      && Subsequence(r, xs)
      && (forall x :: x in r ==> exists i :: 0 <= i < |xs| && xs[i] == x && keys[i] == key)
      && (forall x :: (forall i :: 0 <= i < |xs| && xs[i] == x ==> keys[i] == key) ==>
            multiset(r)[x] == multiset(xs)[x])
  {
    if xs != [] {
      var n := |xs| - 1;
      var init, last := xs[..n], xs[n];
      var found := Select(init, keys[..n], key);
      var r := Select(xs, keys, key);
      SelectKeepsMatches(init, keys[..n], key);
      assert xs == init + [last];
      assert multiset(xs) == multiset(init) + multiset{last};
      if keys[n] == key {
        assert r == found + [last];
        assert r[..|r| - 1] == found;
        assert multiset(r) == multiset(found) + multiset{last};
      } else {
        assert r == found;
      }
      forall x | x in r
        ensures exists i :: 0 <= i < |xs| && xs[i] == x && keys[i] == key
      {
        if x in found {
          var i :| 0 <= i < |init| && init[i] == x && keys[..n][i] == key;
          assert xs[i] == x && keys[i] == key;
        } else {
          assert xs[n] == x && keys[n] == key;
        }
      }
      forall x | (forall i :: 0 <= i < |xs| && xs[i] == x ==> keys[i] == key)
        ensures multiset(r)[x] == multiset(xs)[x]
      {
        assert forall i :: 0 <= i < |init| && init[i] == x ==> keys[..n][i] == key by {
          forall i | 0 <= i < |init| && init[i] == x
            ensures keys[..n][i] == key
          {
            assert xs[i] == x;
          }
        }
        if x == last {
          assert keys[n] == key;
        }
      }
    }
  }
}
