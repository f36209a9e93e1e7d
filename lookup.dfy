/**
  The reverse lookup every enum of the system uses: walk `values()` in
  declaration order and return the first constant whose key equals the
  argument.
*/
module Lookup {
  import opened Wrappers

  /** The first element of `xs` whose key is `k`, or None when there is none. */
  function FindFirst<T, K(==)>(xs: seq<T>, key: T -> K, k: K): (r: Option<T>)
    ensures r.Some? ==> r.value in xs && key(r.value) == k
    ensures r.None? <==> forall i :: 0 <= i < |xs| ==> key(xs[i]) != k
    ensures r.Some? ==> exists i :: 0 <= i < |xs| && xs[i] == r.value
                                    && forall j :: 0 <= j < i ==> key(xs[j]) != k
    decreases |xs|
  {
    if xs == [] then None
    else if key(xs[0]) == k then Some(xs[0])
    else
      var r := FindFirst(xs[1..], key, k);
      assert forall i :: 1 <= i < |xs| ==> xs[i] == xs[1..][i - 1];
      r
  }

  /** No two elements share a key. */
  predicate KeysDistinct<T, K(==)>(xs: seq<T>, key: T -> K) {
    forall i, j :: 0 <= i < j < |xs| ==> key(xs[i]) != key(xs[j])
  }

  /** With distinct keys, looking up an element's own key finds that element. */
  lemma {:induction false} FindOwnKey<T, K>(xs: seq<T>, key: T -> K, x: T)
    requires KeysDistinct(xs, key) && x in xs
    ensures FindFirst(xs, key, key(x)) == Some(x)
    decreases |xs|
  {
    if xs[0] != x {
      assert x in xs[1..] by {
        var i :| 0 <= i < |xs| && xs[i] == x;
        assert xs[1..][i - 1] == x;
      }
      assert key(xs[0]) != key(x) by {
        var i :| 0 <= i < |xs| && xs[i] == x;
        assert 0 < i;
      }
      assert KeysDistinct(xs[1..], key) by {
        forall i, j | 0 <= i < j < |xs[1..]|
          ensures key(xs[1..][i]) != key(xs[1..][j])
        {
          assert xs[1..][i] == xs[i + 1] && xs[1..][j] == xs[j + 1];
        }
      }
      FindOwnKey(xs[1..], key, x);
    }
  }
}
