/**
 The two order builders of the control plane. The library argsort may break ties in any way, so
 only a permutation that is descending in cost is known of its result.
 */
module OrderBuilders {
  import opened Prelude
  import Sorting

  ghost predicate Descending(cost: seq<real>, order: seq<nat>)
    requires forall k :: 0 <= k < |order| ==> order[k] < |cost|
  {
    forall i, j :: 0 <= i < j < |order| ==> cost[order[i]] >= cost[order[j]]
  }

  ghost predicate IsArgsort(cost: seq<real>, order: seq<nat>) {
    IsPerm(order, |cost|) && Descending(cost, order)
  }

  method ArgsortDescending(cost: seq<real>) returns (order: seq<nat>)
    ensures IsArgsort(cost, order)
  {
    var keys := seq(|cost|, i requires 0 <= i < |cost| => -cost[i]);
    order := Sorting.StableSort(keys);
  }

  // ------------------------------------------------------------------
  // Region-aware order: alternating prefix of resident slots, then the middle.
  // ------------------------------------------------------------------

  /** Which rank (0 = heaviest) slot k receives when r of n slots are resident. */
  function Rank(n: nat, r: nat, k: nat): nat
    requires r < n && k < n
  {
    if k >= r then (r + 1) / 2 + (k - r)
    else if k % 2 == 0 then k / 2
    else n - 1 - k / 2
  }

  lemma RankInjective(n: nat, r: nat, i: nat, j: nat)
    requires r < n && i < j < n
    ensures Rank(n, r, i) < n && Rank(n, r, j) < n && Rank(n, r, i) != Rank(n, r, j)
  {
  }

  ghost predicate RankedBy(lpt: seq<nat>, r: nat, order: seq<nat>)
    requires r < |lpt|
  {
    |order| == |lpt| && forall k :: 0 <= k < |lpt| ==> order[k] == lpt[Rank(|lpt|, r, k)]
  }

  /** Heaviest work first on the even resident slots, lightest first on the odd ones, then the middle, descending. */
  ghost predicate Placement(cost: seq<real>, r: nat, order: seq<nat>)
    requires r <= |order| && forall k :: 0 <= k < |order| ==> order[k] < |cost|
  {
    && (forall e, s :: 0 <= e < r <= s < |order| && e % 2 == 0 ==> cost[order[e]] >= cost[order[s]])
    && (forall o, s :: 0 <= o < r <= s < |order| && o % 2 == 1 ==> cost[order[s]] >= cost[order[o]])
    && (forall e, o :: 0 <= e < r && 0 <= o < r && e % 2 == 0 && o % 2 == 1 ==>
          cost[order[e]] >= cost[order[o]])
    && (forall s, t :: r <= s < t < |order| ==> cost[order[s]] >= cost[order[t]])
    && (forall e, f :: 0 <= e < f < r && e % 2 == 0 && f % 2 == 0 ==> cost[order[e]] >= cost[order[f]])
    && (forall o, p :: 0 <= o < p < r && o % 2 == 1 && p % 2 == 1 ==> cost[order[o]] <= cost[order[p]])
  }

  lemma RankedIsPerm(lpt: seq<nat>, r: nat, order: seq<nat>)
    requires IsPerm(lpt, |lpt|) && 0 < r < |lpt| && RankedBy(lpt, r, order)
    ensures IsPerm(order, |lpt|)
  {
    var n := |lpt|;
    RankInjective(n, r, 0, n - 1);
    forall i, j | 0 <= i < j < n ensures order[i] != order[j] && order[i] < n && order[j] < n {
      RankInjective(n, r, i, j);
    }
  }

  /** For every cost vector, tie-breaking and region size: a permutation, placed as promised. */
  lemma RegionPlacement(cost: seq<real>, lpt: seq<nat>, r: nat, order: seq<nat>)
    requires IsArgsort(cost, lpt) && 0 < r < |cost| && RankedBy(lpt, r, order)
    ensures IsPerm(order, |cost|) && Placement(cost, r, order)
  {
    var n := |cost|;
    RankedIsPerm(lpt, r, order);
    hide NoDup;
    forall i, j | 0 <= i < n && 0 <= j < n && Rank(n, r, i) < Rank(n, r, j)
      ensures cost[order[i]] >= cost[order[j]]
    {
    }
  }

  /** The strided fills of a fresh prefix buffer, then the middle slice. */
  method FillRegion(lpt: seq<nat>, r: nat) returns (order: seq<nat>)
    requires 0 < r < |lpt|
    ensures RankedBy(lpt, r, order)
  {
    var n := |lpt|;
    var nh := (r + 1) / 2;
    var nl := r - nh;
    var pre := new nat[r];
    var j := 0;
    while j < nh
      invariant 0 <= j <= nh
      invariant forall k :: 0 <= k < j ==> pre[2 * k] == lpt[k]
    {
      pre[2 * j] := lpt[j];
      j := j + 1;
    }
    j := 0;
    while j < nl
      invariant 0 <= j <= nl
      invariant forall k :: 0 <= k < nh ==> pre[2 * k] == lpt[k]
      invariant forall k :: 0 <= k < j ==> pre[2 * k + 1] == lpt[n - 1 - k]
    {
      pre[2 * j + 1] := lpt[n - 1 - j];
      j := j + 1;
    }
    order := pre[..] + lpt[nh..n - nl];
    forall k | 0 <= k < n ensures order[k] == lpt[Rank(n, r, k)] {
      if k < r {
        assert k == 2 * (k / 2) + k % 2;
      }
    }
  }

  /** The region-aware order of a claim-loop step. */
  method RegionOrder(cost: seq<real>, lpt: seq<nat>, r: nat) returns (order: seq<nat>)
    requires IsArgsort(cost, lpt) && 0 < r < |cost|
    ensures IsPerm(order, |cost|) && Placement(cost, r, order)
  {
    order := FillRegion(lpt, r);
    RegionPlacement(cost, lpt, r, order);
  }

  // ------------------------------------------------------------------
  // Grouped LPT: blocks of adjacent tiles, blocks in descending cost.
  // ------------------------------------------------------------------

  function Block(size: nat, b: nat): (s: seq<nat>)
    ensures |s| == size
  {
    seq(size, j requires 0 <= j => b * size + j)
  }

  /** Each block's row of indices, padding included, row after row. */
  function Flatten(border: seq<nat>, size: nat): seq<nat> {
    if border == [] then [] else Flatten(border[..|border| - 1], size) + Block(size, border[|border| - 1])
  }

  /** Dropping the padding slots. */
  function Below(s: seq<nat>, n: nat): seq<nat> {
    if s == [] then []
    else
      var k := |s| - 1;
      Below(s[..k], n) + if s[k] < n then [s[k]] else []
  }

  /** Aggregate cost of a block; the zero padding adds nothing. */
  function BlockCost(cost: seq<real>, size: nat, b: nat, len: nat): real {
    if len == 0 then 0.0
    else
      var i := b * size + (len - 1);
      BlockCost(cost, size, b, len - 1) + if i < |cost| then cost[i] else 0.0
  }

  /** The tiles of a block, without its padding, and what they cost together. */
  function BlockTiles(cost: seq<real>, size: nat, b: nat): seq<real> {
    cost[Min(b * size, |cost|)..Min(b * size + size, |cost|)]
  }

  function Total(xs: seq<real>): real {
    if xs == [] then 0.0 else Total(xs[..|xs| - 1]) + xs[|xs| - 1]
  }

  /** The costs from base on, up to len of them. */
  function Window(cost: seq<real>, base: nat, len: nat): seq<real> {
    cost[Min(base, |cost|)..Min(base + len, |cost|)]
  }

  lemma WindowGrows(cost: seq<real>, base: nat, len: nat)
    ensures Total(Window(cost, base, len + 1))
            == Total(Window(cost, base, len)) + if base + len < |cost| then cost[base + len] else 0.0
  {
    var w, x := Window(cost, base, len), Window(cost, base, len + 1);
    if base + len < |cost| {
      assert x[..|x| - 1] == w && x[|x| - 1] == cost[base + len];
    } else {
      assert x == w;
    }
  }

  lemma {:induction false} BlockCostPrefix(cost: seq<real>, size: nat, b: nat, len: nat)
    ensures BlockCost(cost, size, b, len) == Total(Window(cost, b * size, len))
  {
    if len > 0 {
      BlockCostPrefix(cost, size, b, len - 1);
      WindowGrows(cost, b * size, len - 1);
      hide Window, Total;
    }
  }

  /** The aggregate cost of a block is the plain sum of the costs of its tiles. */
  lemma BlockCostIsTotal(cost: seq<real>, size: nat, b: nat)
    ensures BlockCost(cost, size, b, size) == Total(BlockTiles(cost, size, b))
  {
    BlockCostPrefix(cost, size, b, size);
    assert BlockTiles(cost, size, b) == Window(cost, b * size, size);
  }

  function Blocks(n: nat, size: nat): nat
    requires size > 0
  {
    (n + size - 1) / size
  }

  function BlockCosts(cost: seq<real>, size: nat): (bs: seq<real>)
    requires size > 0
    ensures |bs| == Blocks(|cost|, size)
    ensures forall b :: 0 <= b < |bs| ==> bs[b] == BlockCost(cost, size, b, size)
  {
    seq(Blocks(|cost|, size), b requires 0 <= b => BlockCost(cost, size, b, size))
  }

  function GroupedLpt(n: nat, size: nat, border: seq<nat>): seq<nat> {
    Below(Flatten(border, size), n)
  }

  lemma {:induction false} BelowAppend(a: seq<nat>, b: seq<nat>, n: nat)
    ensures Below(a + b, n) == Below(a, n) + Below(b, n)
  {
    if b == [] {
      assert a + b == a;
    } else {
      var k := |b| - 1;
      BelowAppend(a, b[..k], n);
      assert (a + b)[..|a + b| - 1] == a + b[..k];
    }
  }

  /** A block with its padding dropped is a run of adjacent tiles. */
  function Trimmed(n: nat, size: nat, b: nat): (s: seq<nat>)
    ensures forall k :: 0 <= k < |s| ==> s[k] == b * size + k
    ensures |s| == if b * size + size <= n then size else if b * size <= n then n - b * size else 0
  {
    seq(if b * size + size <= n then size else if b * size <= n then n - b * size else 0,
        j requires 0 <= j => b * size + j)
  }

  lemma {:induction false} BelowRun(base: nat, len: nat, n: nat)
    ensures Below(seq(len, j requires 0 <= j => base + j), n)
            == seq(if base + len <= n then len else if base <= n then n - base else 0,
                   j requires 0 <= j => base + j)
  {
    if len > 0 {
      BelowRun(base, len - 1, n);
      var s := seq(len, j requires 0 <= j => base + j);
      assert s[..len - 1] == seq(len - 1, j requires 0 <= j => base + j);
    }
  }

  lemma BelowBlock(n: nat, size: nat, b: nat)
    ensures Below(Block(size, b), n) == Trimmed(n, size, b)
  {
    BelowRun(b * size, size, n);
    assert Block(size, b) == seq(size, j requires 0 <= j => b * size + j);
  }

  lemma GroupedLast(n: nat, size: nat, border: seq<nat>)
    requires border != []
    ensures var k := |border| - 1;
            GroupedLpt(n, size, border) == GroupedLpt(n, size, border[..k]) + Trimmed(n, size, border[k])
  {
    var k := |border| - 1;
    BelowAppend(Flatten(border[..k], size), Block(size, border[k]), n);
    BelowBlock(n, size, border[k]);
  }

  lemma DivUnique(size: nat, b: nat, k: nat)
    requires k < size
    ensures (b * size + k) / size == b && (b * size + k) % size == k
  {
    var v := b * size + k;
    var q := v / size;
    DivFloor(v, size);
    Successor(size, b);
    Successor(size, q);
    MulLess(size, q, b + 1);
    MulLess(size, b, q + 1);
  }

  lemma MulMono(g: nat, a: nat, b: nat)
    requires a <= b
    ensures g * a <= g * b
  {
  }

  lemma Successor(g: nat, b: nat)
    ensures g * (b + 1) == b * g + g == g * b + g
  {
  }

  lemma DivFloor(v: nat, size: nat)
    requires size > 0
    ensures size * (v / size) <= v < size * (v / size) + size
  {
  }

  lemma TrimmedBlock(n: nat, size: nat, b: nat, v: nat)
    requires size > 0
    ensures v in Trimmed(n, size, b) <==> v < n && v / size == b
  {
    var s := Trimmed(n, size, b);
    if v < n && v / size == b {
      assert v == b * size + v % size;
      assert s[v % size] == v;
    }
    if v in s {
      var k :| 0 <= k < |s| && s[k] == v;
      DivUnique(size, b, k);
    }
  }

  lemma {:induction false} GroupedMembers(n: nat, size: nat, border: seq<nat>)
    requires size > 0 && NoDup(border)
    ensures forall v: nat :: v in GroupedLpt(n, size, border) <==> v < n && v / size in border
    ensures NoDup(GroupedLpt(n, size, border))
  {
    if border != [] {
      var k := |border| - 1;
      GroupedLast(n, size, border);
      GroupedMembers(n, size, border[..k]);
      var a, b := GroupedLpt(n, size, border[..k]), Trimmed(n, size, border[k]);
      forall v: nat ensures v in b <==> v < n && v / size == border[k] {
        TrimmedBlock(n, size, border[k], v);
      }
      assert border[k] !in border[..k];
      forall i, j | 0 <= i < j < |a + b| ensures (a + b)[i] != (a + b)[j] {
        if i < |a| <= j {
          assert a[i] in a && b[j - |a|] in b;
        }
      }
      assert forall v :: v in border <==> v in border[..k] || v == border[k];
    }
  }

  lemma BlockInRange(n: nat, size: nat, v: nat)
    requires size > 0 && v < n
    ensures v / size < Blocks(n, size)
  {
    var q := (n + size - 1) / size;
    DivFloor(n + size - 1, size);
    DivFloor(v, size);
    MulLess(size, v / size, q);
  }

  /**
   Neighbours in a grouped order: next to each other in memory inside a block, and otherwise the
   end of a block followed by the start of one that costs no more.
   */
  ghost predicate Follows(cost: seq<real>, size: nat, u: nat, v: nat)
    requires size > 0
  {
    if u / size == v / size then v == u + 1
    else
      && (u % size == size - 1 || u == |cost| - 1)
      && v % size == 0
      && Total(BlockTiles(cost, size, u / size)) >= Total(BlockTiles(cost, size, v / size))
  }

  ghost predicate EndsBlock(n: nat, size: nat, b: nat, u: nat)
    requires size > 0
  {
    u / size == b && (u % size == size - 1 || u == n - 1)
  }

  /** No block in range is all padding. */
  lemma BlockStarts(n: nat, size: nat, b: nat)
    requires size > 0 && b < Blocks(n, size)
    ensures b * size < n
  {
    var q := Blocks(n, size);
    DivFloor(n + size - 1, size);
    MulMono(size, b + 1, q);
    Successor(size, b);
  }

  lemma InsideBlock(cost: seq<real>, size: nat, b: nat, j: nat)
    requires size > 0 && j + 1 < |Trimmed(|cost|, size, b)|
    ensures Follows(cost, size, Trimmed(|cost|, size, b)[j], Trimmed(|cost|, size, b)[j + 1])
  {
    DivUnique(size, b, j);
    DivUnique(size, b, j + 1);
  }

  /** The end of one block and the start of another that costs no more. */
  lemma AcrossBlocks(cost: seq<real>, size: nat, a: nat, b: nat, u: nat)
    requires size > 0 && a != b && EndsBlock(|cost|, size, a, u)
    requires BlockCost(cost, size, a, size) >= BlockCost(cost, size, b, size)
    ensures Follows(cost, size, u, b * size)
  {
    DivUnique(size, b, 0);
    BlockCostIsTotal(cost, size, a);
    BlockCostIsTotal(cost, size, b);
  }

  lemma BlockEnds(n: nat, size: nat, b: nat)
    requires size > 0 && b < Blocks(n, size)
    ensures var t := Trimmed(n, size, b); |t| > 0 && t[0] == b * size && EndsBlock(n, size, b, t[|t| - 1])
  {
    BlockStarts(n, size, b);
    DivUnique(size, b, |Trimmed(n, size, b)| - 1);
  }

  lemma {:induction false} GroupedNeighbours(cost: seq<real>, size: nat, border: seq<nat>)
    requires size > 0
    requires NoDup(border) && forall k :: 0 <= k < |border| ==> border[k] < Blocks(|cost|, size)
    requires forall i, j :: 0 <= i < j < |border| ==>
               BlockCost(cost, size, border[i], size) >= BlockCost(cost, size, border[j], size)
    ensures var o := GroupedLpt(|cost|, size, border);
            && (forall p :: 0 <= p < |o| - 1 ==> Follows(cost, size, o[p], o[p + 1]))
            && (border != [] ==> |o| > 0 && EndsBlock(|cost|, size, border[|border| - 1], o[|o| - 1]))
  {
    if border != [] {
      var n := |cost|;
      var k := |border| - 1;
      GroupedLast(n, size, border);
      GroupedNeighbours(cost, size, border[..k]);
      BlockEnds(n, size, border[k]);
      hide Follows, EndsBlock, GroupedLpt, Blocks, BlockCost;
      var a, b := GroupedLpt(n, size, border[..k]), Trimmed(n, size, border[k]);
      var o := a + b;
      forall p | 0 <= p < |o| - 1 ensures Follows(cost, size, o[p], o[p + 1]) {
        if p >= |a| {
          InsideBlock(cost, size, border[k], p - |a|);
        } else if p == |a| - 1 {
          assert k > 0 ==> border[..k][k - 1] == border[k - 1];
          if k > 0 { AcrossBlocks(cost, size, border[k - 1], border[k], a[p]); }
        }
      }
    }
  }

  lemma GroupedCovers(n: nat, size: nat, border: seq<nat>)
    requires size > 0 && IsPerm(border, Blocks(n, size))
    ensures IsPerm(GroupedLpt(n, size, border), n)
  {
    hide GroupedLpt, Blocks;
    var o := GroupedLpt(n, size, border);
    GroupedMembers(n, size, border);
    forall v: nat | v < n ensures v in o {
      BlockInRange(n, size, v);
      PermHitsAll(border, Blocks(n, size), v / size);
    }
    NoDupCovers(o, n);
    assert forall i :: 0 <= i < |o| ==> o[i] in o;
  }

  /**
   For every cost vector, block size and tie-breaking the grouped order is a permutation; blocks
   stay contiguous and ascending, and the costs of their tiles, summed, never increase along it.
   */
  lemma GroupedPlacement(cost: seq<real>, size: nat, border: seq<nat>)
    requires size > 0 && IsArgsort(BlockCosts(cost, size), border)
    ensures var o := GroupedLpt(|cost|, size, border);
            IsPerm(o, |cost|) && forall p :: 0 <= p < |o| - 1 ==> Follows(cost, size, o[p], o[p + 1])
  {
    hide Follows, BlockCost, GroupedLpt, Blocks;
    GroupedCovers(|cost|, size, border);
    GroupedNeighbours(cost, size, border);
  }

  /**
   The whole builder with its branches: no region (or everything resident) gives the grouped
   order, plain LPT when blocks are trivial, and the region-aware order otherwise. The result is
   always a permutation of the tiles.
   */
  method BuildOrder(cost: seq<real>, r: int, size: int) returns (order: seq<nat>)
    ensures IsPerm(order, |cost|)
    ensures 0 < r < |cost| ==> Placement(cost, r, order)
    ensures !(0 < r < |cost|) && (size <= 1 || |cost| <= size) ==> Descending(cost, order)
    ensures !(0 < r < |cost|) && 1 < size < |cost| ==>
              forall p :: 0 <= p < |order| - 1 ==> Follows(cost, size, order[p], order[p + 1])
  {
    var n := |cost|;
    if r <= 0 || n <= r {
      if size <= 1 || n <= size {
        order := ArgsortDescending(cost);
      } else {
        var border := ArgsortDescending(BlockCosts(cost, size));
        GroupedPlacement(cost, size, border);
        order := GroupedLpt(n, size, border);
      }
    } else {
      var lpt := ArgsortDescending(cost);
      order := RegionOrder(cost, lpt, r);
    }
  }
}
