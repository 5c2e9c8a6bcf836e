/**
 Sorting indices by key, stably: the library sort the control plane calls.
 */
module Sorting {
  import opened Prelude

  /** Indices of keys in non-decreasing key order, ties by index. */
  ghost predicate StablySorted(keys: seq<real>, order: seq<nat>)
    requires forall k :: 0 <= k < |order| ==> order[k] < |keys|
  {
    forall i, j :: 0 <= i < j < |order| ==>
      keys[order[i]] < keys[order[j]] || (keys[order[i]] == keys[order[j]] && order[i] < order[j])
  }

  /** Index i goes after every key that is not larger and before every key that is. */
  lemma Inserted(keys: seq<real>, order: seq<nat>, i: nat, p: nat)
    requires i < |keys| && p <= i && IsPerm(order, i) && StablySorted(keys, order)
    requires forall q :: p <= q < i ==> keys[order[q]] > keys[i]
    requires forall q :: 0 <= q < p ==> keys[order[q]] <= keys[i]
    ensures IsPerm(order[..p] + [i] + order[p..], i + 1)
    ensures StablySorted(keys, order[..p] + [i] + order[p..])
  {
    var r := order[..p] + [i] + order[p..];
    assert forall k :: 0 <= k < i + 1 ==> r[k] == if k < p then order[k] else if k == p then i else order[k - 1];
  }

  method StableSort(keys: seq<real>) returns (order: seq<nat>)
    ensures IsPerm(order, |keys|) && StablySorted(keys, order)
  {
    order := [];
    for i := 0 to |keys|
      invariant IsPerm(order, i) && StablySorted(keys, order)
    {
      var p := i;
      while p > 0 && keys[order[p - 1]] > keys[i]
        invariant 0 <= p <= i
        invariant forall q :: p <= q < i ==> keys[order[q]] > keys[i]
      {
        p := p - 1;
      }
      forall q | 0 <= q < p ensures keys[order[q]] <= keys[i] {
        assert keys[order[q]] <= keys[order[p - 1]];
      }
      Inserted(keys, order, i, p);
      order := order[..p] + [i] + order[p..];
    }
  }
}
