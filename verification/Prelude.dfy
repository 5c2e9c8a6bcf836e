/**
 Shared vocabulary: machine-word bounds, sums, duplicate-free sequences and
 permutations of an initial segment of the naturals.
 */
module Prelude {

  const U16: nat := 0x1_0000
  const U32: nat := 0x1_0000_0000
  const U64: nat := 0x1_0000_0000_0000_0000

  datatype Option<+T> = None | Some(value: T)

  ghost predicate NoDup<T>(s: seq<T>) {
    forall i, j :: 0 <= i < j < |s| ==> s[i] != s[j]
  }

  /** p lists 0..n-1, each exactly once. */
  ghost predicate IsPerm(p: seq<nat>, n: nat) {
    && |p| == n
    && (forall i :: 0 <= i < n ==> p[i] < n)
    && NoDup(p)
  }

  function Identity(n: nat): (p: seq<nat>)
    ensures IsPerm(p, n)
    ensures forall i :: 0 <= i < n ==> p[i] == i
  {
    seq(n, i => i)
  }

  function Upto(n: nat): (s: set<nat>)
    ensures forall i: nat :: i in s <==> i < n
  {
    if n == 0 then {} else Upto(n - 1) + {n - 1}
  }

  lemma {:induction false} UptoSize(n: nat)
    ensures |Upto(n)| == n
  {
    if n > 0 {
      UptoSize(n - 1);
    }
  }

  function Elems<T(!new)>(s: seq<T>): set<T> {
    set x | x in s
  }

  lemma {:induction false} NoDupSize<T(!new)>(s: seq<T>)
    requires NoDup(s)
    ensures |Elems(s)| == |s|
  {
    if s != [] {
      var n := |s| - 1;
      NoDupSize(s[..n]);
      assert s == s[..n] + [s[n]];
      assert Elems(s) == Elems(s[..n]) + {s[n]};
      assert s[n] !in s[..n];
    }
  }

  lemma SubsetFull<T>(a: set<T>, b: set<T>)
    requires a <= b && |a| == |b|
    ensures a == b
  {
    assert b == a + (b - a);
    assert |a + (b - a)| == |a| + |b - a|;
    assert b - a == {};
  }

  lemma SubsetSmaller<T>(a: set<T>, b: set<T>)
    requires a <= b
    ensures |a| <= |b|
  {
    assert b == a + (b - a);
    assert a !! (b - a);
    assert |a + (b - a)| == |a| + |b - a|;
  }

  /** Pigeonhole: a duplicate-free list of n numbers below n hits every one. */
  lemma PermHitsAll(p: seq<nat>, n: nat, v: nat)
    requires IsPerm(p, n) && v < n
    ensures v in p
  {
    NoDupSize(p);
    UptoSize(n);
    assert Elems(p) <= Upto(n);
    SubsetFull(Elems(p), Upto(n));
    assert v in Elems(p);
  }

  /** A duplicate-free list of numbers below n has at most n entries. */
  lemma NoDupBounded(s: seq<nat>, n: nat)
    requires NoDup(s)
    requires forall i :: 0 <= i < |s| ==> s[i] < n
    ensures |s| <= n
    ensures |s| == n ==> forall v: nat :: v < n ==> v in s
  {
    NoDupSize(s);
    UptoSize(n);
    assert Elems(s) <= Upto(n);
    SubsetSmaller(Elems(s), Upto(n));
    if |s| == n {
      forall v: nat | v < n ensures v in s { PermHitsAll(s, n, v); }
    }
  }

  /** A duplicate-free list that holds exactly the numbers below n has n entries. */
  lemma NoDupCovers(s: seq<nat>, n: nat)
    requires NoDup(s)
    requires forall v: nat :: v in s <==> v < n
    ensures |s| == n
  {
    NoDupSize(s);
    UptoSize(n);
    assert Elems(s) == Upto(n);
  }

  function Sum(s: seq<nat>): nat {
    if s == [] then 0 else Sum(s[..|s| - 1]) + s[|s| - 1]
  }

  lemma {:induction false} SumUpdate(s: seq<nat>, i: nat, v: nat)
    requires i < |s|
    ensures Sum(s[i := v]) + s[i] == Sum(s) + v
  {
    var n := |s| - 1;
    var t := s[i := v];
    if i < n {
      SumUpdate(s[..n], i, v);
      assert t[..n] == s[..n][i := v];
    } else {
      assert t[..n] == s[..n];
    }
  }

  lemma {:induction false} SumZero(s: seq<nat>)
    requires forall i :: 0 <= i < |s| ==> s[i] == 0
    ensures Sum(s) == 0
  {
    if s != [] { SumZero(s[..|s| - 1]); }
  }

  function Min(a: nat, b: nat): nat {
    if a <= b then a else b
  }

  lemma MulLess(g: nat, a: nat, b: nat)
    requires g * a < g * b
    ensures a < b
  {
  }
}
