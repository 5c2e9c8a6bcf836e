/**
 Folding the timer rows of one probe into its requests.
 */
module ProbeFold {
  import opened Prelude

  /** clamp_(0, n - 1): indices from outside the batch go to its first or last request. */
  function Clamp(i: int, n: nat): int {
    if i >= n then n - 1 else if i < 0 then 0 else i
  }

  /** How many rows of the table a probe folds: every launched tile, or one row a request. */
  function Folded(n: nat, tileMap: Option<seq<int>>, rows: nat): nat {
    match tileMap
    case None => Min(n, rows)
    case Some(m) => Min(rows, |m|)
  }

  /** The cycles of the tiles among the first k that belong to request q. */
  function TilesOf(q: int, n: nat, tileMap: seq<int>, rows: seq<nat>, k: nat): nat
    requires k <= |tileMap| && k <= |rows|
  {
    if k == 0 then 0
    else TilesOf(q, n, tileMap, rows, k - 1) + if Clamp(tileMap[k - 1], n) == q then rows[k - 1] else 0
  }

  /** The cycles each request of a batch of n is charged. */
  function PerRequest(n: nat, tileMap: Option<seq<int>>, rows: seq<nat>): (p: seq<nat>)
    ensures |p| == n
  {
    match tileMap
    case None => seq(n, q requires 0 <= q => if q < |rows| then rows[q] else 0)
    case Some(m) => seq(n, q requires 0 <= q => TilesOf(q, n, m, rows, Folded(n, tileMap, |rows|)))
  }

  /** The scatter: every folded tile adds its cycles to its request, in place. */
  method FoldRows(n: nat, tileMap: Option<seq<int>>, rows: seq<nat>) returns (p: seq<nat>)
    ensures p == PerRequest(n, tileMap, rows)
  {
    if tileMap.None? {
      var m := Min(n, |rows|);
      p := rows[..m] + seq(n - m, _ => 0);
      return;
    }
    var tiles := tileMap.value;
    var m := Folded(n, tileMap, |rows|);
    var sums := new nat[n](_ => 0);
    for k := 0 to m
      invariant forall q :: 0 <= q < n ==> sums[q] == TilesOf(q, n, tiles, rows, k)
    {
      if n > 0 {
        var q := Clamp(tiles[k], n);
        sums[q] := sums[q] + rows[k];
      }
    }
    p := sums[..];
  }

  function Charged(n: nat, tileMap: seq<int>, rows: seq<nat>, k: nat): (p: seq<nat>)
    requires k <= |tileMap| && k <= |rows|
    ensures |p| == n
    ensures forall q :: 0 <= q < n ==> p[q] == TilesOf(q, n, tileMap, rows, k)
  {
    seq(n, q requires 0 <= q => TilesOf(q, n, tileMap, rows, k))
  }

  lemma {:induction false} ChargedSum(n: nat, tileMap: seq<int>, rows: seq<nat>, k: nat)
    requires k <= |tileMap| && k <= |rows| && n > 0
    ensures Sum(Charged(n, tileMap, rows, k)) == Sum(rows[..k])
  {
    if k == 0 {
      SumZero(Charged(n, tileMap, rows, 0));
    } else {
      ChargedSum(n, tileMap, rows, k - 1);
      var before := Charged(n, tileMap, rows, k - 1);
      var q: nat := Clamp(tileMap[k - 1], n);
      var v := before[q] + rows[k - 1];
      SumUpdate(before, q, v);
      assert Charged(n, tileMap, rows, k) == before[q := v];
      assert rows[..k][..k - 1] == rows[..k - 1];
    }
  }

  /**
   No cycle is lost or charged twice, however a request was split into tiles: the charges of the
   batch add up to the folded rows, for any tile-to-request map, in or out of range.
   */
  lemma FoldConserves(n: nat, tileMap: Option<seq<int>>, rows: seq<nat>)
    requires tileMap.Some? && tileMap.value != [] ==> n > 0
    ensures Sum(PerRequest(n, tileMap, rows)) == Sum(rows[..Folded(n, tileMap, |rows|)])
  {
    var m := Folded(n, tileMap, |rows|);
    var p := PerRequest(n, tileMap, rows);
    match tileMap
    case None =>
      ZeroTail(rows[..m], p);
    case Some(tiles) =>
      if m == 0 {
        SumZero(p);
      } else {
        assert p == Charged(n, tiles, rows, m);
        ChargedSum(n, tiles, rows, m);
      }
  }

  lemma {:induction false} ZeroTail(a: seq<nat>, p: seq<nat>)
    requires |a| <= |p| && p[..|a|] == a && forall q :: |a| <= q < |p| ==> p[q] == 0
    ensures Sum(p) == Sum(a)
  {
    if |a| < |p| {
      ZeroTail(a, p[..|p| - 1]);
    } else {
      assert p == a;
    }
  }

  lemma {:induction false} TilesUpdate(q: int, n: nat, tileMap: seq<int>, rows: seq<nat>, k: nat, t: nat, v: nat)
    requires k <= |tileMap| && k <= |rows| && t < |rows|
    ensures TilesOf(q, n, tileMap, rows[t := v], k)
              + (if t < k && Clamp(tileMap[t], n) == q then rows[t] else 0)
            == TilesOf(q, n, tileMap, rows, k) + if t < k && Clamp(tileMap[t], n) == q then v else 0
  {
    if k > 0 { TilesUpdate(q, n, tileMap, rows, k - 1, t, v); }
  }

  /** The request a map entry stands for: itself, or the first or last request if it is outside the batch. */
  predicate Names(entry: int, n: nat, q: nat) {
    entry == q || (entry < 0 && q == 0) || (entry >= n && q == n - 1)
  }

  /** The folded rows of the tiles whose map entry stands for request q. */
  function Shares(n: nat, tileMap: seq<int>, rows: seq<nat>, q: nat, k: nat): (xs: seq<nat>)
    requires k <= |tileMap| && k <= |rows|
    ensures |xs| == k && forall t :: 0 <= t < k ==> xs[t] == if Names(tileMap[t], n, q) then rows[t] else 0
  {
    seq(k, t requires 0 <= t < k => if Names(tileMap[t], n, q) then rows[t] else 0)
  }

  lemma {:induction false} TilesAreShares(n: nat, tileMap: seq<int>, rows: seq<nat>, q: nat, k: nat)
    requires k <= |tileMap| && k <= |rows| && q < n
    ensures TilesOf(q, n, tileMap, rows, k) == Sum(Shares(n, tileMap, rows, q, k))
  {
    if k > 0 {
      TilesAreShares(n, tileMap, rows, q, k - 1);
      assert Shares(n, tileMap, rows, q, k)[..k - 1] == Shares(n, tileMap, rows, q, k - 1);
    }
  }

  /**
   Each request is charged its own tiles, summed: those the map names it for, with entries below the
   batch going to the first request and those past it to the last. Rows past the map, and map entries
   past the rows, are not folded. Without a map request q is charged row q, or nothing past the rows.
   */
  lemma RequestGetsItsTiles(n: nat, tileMap: Option<seq<int>>, rows: seq<nat>, q: nat)
    requires q < n
    ensures tileMap.None? ==> PerRequest(n, tileMap, rows)[q] == if q < |rows| then rows[q] else 0
    ensures tileMap.Some? ==>
              var k := if |rows| < |tileMap.value| then |rows| else |tileMap.value|;
              PerRequest(n, tileMap, rows)[q] == Sum(Shares(n, tileMap.value, rows, q, k))
  {
    if tileMap.Some? {
      TilesAreShares(n, tileMap.value, rows, q, Folded(n, tileMap, |rows|));
    }
  }

  /** More cycles on one tile are charged, all of them, to the request its entry names and to no other. */
  lemma TileChargesItsRequest(n: nat, tileMap: seq<int>, rows: seq<nat>, t: nat, more: nat, q: nat)
    requires t < |rows| && t < |tileMap| && q < n && Names(tileMap[t], n, q)
    ensures var before := PerRequest(n, Some(tileMap), rows);
            PerRequest(n, Some(tileMap), rows[t := rows[t] + more]) == before[q := before[q] + more]
  {
    var after := PerRequest(n, Some(tileMap), rows[t := rows[t] + more]);
    var before := PerRequest(n, Some(tileMap), rows);
    assert q == Clamp(tileMap[t], n);
    forall p | 0 <= p < n ensures after[p] == if p == q then before[p] + more else before[p] {
      var k := Folded(n, Some(tileMap), |rows|);
      TilesUpdate(p, n, tileMap, rows, k, t, rows[t] + more);
      assert before[p] == TilesOf(p, n, tileMap, rows, k);
      assert after[p] == TilesOf(p, n, tileMap, rows[t := rows[t] + more], k);
    }
  }
}
