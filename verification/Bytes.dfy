/**
 Little-endian words in byte sequences, and writes into a window of one.
 */
module Bytes {
  import opened Prelude

  type Byte = b: nat | b < 256

  function Bound(k: nat): (n: nat)
    ensures n > 0
  {
    if k == 0 then 1 else 256 * Bound(k - 1)
  }

  /** The k low bytes of n, lowest first. */
  function Encode(n: nat, k: nat): (bs: seq<Byte>)
    ensures |bs| == k
  {
    if k == 0 then [] else [n % 256] + Encode(n / 256, k - 1)
  }

  function Value(bs: seq<Byte>): (n: nat) {
    if bs == [] then 0 else bs[0] + 256 * Value(bs[1..])
  }

  lemma {:induction false} RoundTrip(n: nat, k: nat)
    requires n < Bound(k)
    ensures Value(Encode(n, k)) == n
  {
    if k > 0 {
      RoundTrip(n / 256, k - 1);
      assert Encode(n, k)[1..] == Encode(n / 256, k - 1);
    }
  }

  lemma QuotientIs(n: nat, m: nat, q: nat)
    requires m > 0 && m * q <= n < m * q + m
    ensures n / m == q
  {
    var r := n / m;
    assert m * r <= n < m * r + m;
    assert m * (r + 1) == m * r + m && m * (q + 1) == m * q + m;
    MulLess(m, r, q + 1);
    MulLess(m, q, r + 1);
  }

  lemma ShiftOnce(n: nat, p: nat)
    requires p > 0
    ensures (n / 256) / p == n / (256 * p)
  {
    var q := (n / 256) / p;
    assert p * q <= n / 256 < p * q + p;
    assert (256 * p) * q == 256 * (p * q);
    QuotientIs(n, 256 * p, q);
  }

  /** Byte i is the i-th lowest: words are little-endian. */
  lemma {:induction false} LowestFirst(n: nat, k: nat, i: nat)
    requires i < k
    ensures Encode(n, k)[i] == n / Bound(i) % 256
  {
    if i > 0 {
      LowestFirst(n / 256, k - 1, i - 1);
      ShiftOnce(n, Bound(i - 1));
    }
  }

  /** s with the bytes of d at offset off. */
  function Patch(s: seq<Byte>, off: nat, d: seq<Byte>): (t: seq<Byte>)
    requires off + |d| <= |s|
    ensures |t| == |s|
    ensures forall i :: 0 <= i < |s| ==> t[i] == if off <= i < off + |d| then d[i - off] else s[i]
  {
    s[..off] + d + s[off + |d|..]
  }

  function At(s: seq<Byte>, off: nat, n: nat): (w: seq<Byte>)
    requires off + n <= |s|
    ensures |w| == n
    ensures forall i :: 0 <= i < n ==> w[i] == s[off + i]
  {
    s[off..off + n]
  }

  lemma PatchAt(s: seq<Byte>, off: nat, d: seq<Byte>)
    requires off + |d| <= |s|
    ensures At(Patch(s, off, d), off, |d|) == d
  {
  }

  lemma PatchApart(s: seq<Byte>, off: nat, d: seq<Byte>, o: nat, n: nat)
    requires off + |d| <= |s| && o + n <= |s|
    requires o + n <= off || off + |d| <= o
    ensures At(Patch(s, off, d), o, n) == At(s, o, n)
  {
  }

  /** A word patched in whole reads back. */
  lemma WordAt(s: seq<Byte>, off: nat, n: nat, k: nat)
    requires off + k <= |s| && n < Bound(k)
    ensures Value(At(Patch(s, off, Encode(n, k)), off, k)) == n
  {
    PatchAt(s, off, Encode(n, k));
    RoundTrip(n, k);
  }

  /** memmove into an array. */
  method Poke(a: array<Byte>, off: nat, d: seq<Byte>)
    requires off + |d| <= a.Length
    modifies a
    ensures a[..] == Patch(old(a[..]), off, d)
  {
    for i := 0 to |d|
      invariant forall j :: 0 <= j < a.Length ==>
                  a[j] == if off <= j < off + i then d[j - off] else old(a[j])
    {
      a[off + i] := d[i];
    }
  }
}
