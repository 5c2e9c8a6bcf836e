/**
 The expert capacity cap. Slots arrive in order, each naming an expert; the vectorised
 form sorts, ranks within the group and scatters back. An expert keeps its first C slots.
 */
module ExpertCap {
  import opened Prelude
  import Sorting

  /** How many slots chose expert x. */
  function Count(es: seq<nat>, x: nat): nat {
    if es == [] then 0
    else Count(es[..|es| - 1], x) + if es[|es| - 1] == x then 1 else 0
  }

  /** How many earlier slots chose the same expert as slot i. */
  function ArrivalRank(es: seq<nat>, i: nat): nat
    requires i < |es|
  {
    Count(es[..i], es[i])
  }

  /** The capacity: the mean load times the factor, truncated toward zero. */
  function Capacity(factor: real, slots: nat, experts: nat): int
    requires experts > 0
  {
    var c := factor * slots as real / experts as real;
    if c >= 0.0 then c.Floor else -(-c).Floor
  }

  /** It is the mean load times the factor with its fraction cut off, on either side of zero. */
  lemma CapacityTruncates(factor: real, slots: nat, experts: nat)
    requires experts > 0
    ensures var x := factor * slots as real / experts as real;
            var c := Capacity(factor, slots, experts);
            if x >= 0.0 then c as real <= x < c as real + 1.0 else c as real - 1.0 < x <= c as real
  {
    var x := factor * slots as real / experts as real;
    if x < 0.0 {
      assert (-x).Floor as real <= -x < (-x).Floor as real + 1.0;
    }
  }

  /** The stable argsort of the expert ids: by expert, ties by arrival. */
  ghost predicate IsStableArgsort(es: seq<nat>, order: seq<nat>) {
    && IsPerm(order, |es|)
    && forall i, j :: 0 <= i < j < |es| ==>
         es[order[i]] < es[order[j]] || (es[order[i]] == es[order[j]] && order[i] < order[j])
  }

  /** Exclusive prefix sum of the group sizes. */
  function GroupStart(es: seq<nat>, x: nat): nat {
    if x == 0 then 0 else GroupStart(es, x - 1) + Count(es, x - 1)
  }

  // ------------------------------------------------------------------
  // Rank inside the sorted group is arrival rank.
  // ------------------------------------------------------------------

  function Slots(n: nat, p: nat -> bool): (s: set<nat>)
    ensures forall i: nat :: i in s <==> i < n && p(i)
  {
    if n == 0 then {} else Slots(n - 1, p) + if p(n - 1) then {n - 1} else {}
  }

  function Chose(es: seq<nat>, x: nat): nat -> bool {
    (i: nat) => i < |es| && es[i] == x
  }

  function ChoseBelow(es: seq<nat>, x: nat): nat -> bool {
    (i: nat) => i < |es| && es[i] < x
  }

  lemma {:induction false} CountIsSize(es: seq<nat>, x: nat, n: nat)
    requires n <= |es|
    ensures |Slots(n, Chose(es, x))| == Count(es[..n], x)
  {
    if n > 0 {
      CountIsSize(es, x, n - 1);
      assert es[..n][..n - 1] == es[..n - 1];
    }
  }

  /** The smaller experts are those below x - 1 and x - 1 itself. */
  lemma BelowSplits(es: seq<nat>, x: nat, n: nat)
    requires n == |es| && x > 0
    ensures var a, b := Slots(n, ChoseBelow(es, x - 1)), Slots(n, Chose(es, x - 1));
            a !! b && Slots(n, ChoseBelow(es, x)) == a + b
  {
    hide Slots;
    var a, b, c := Slots(n, ChoseBelow(es, x - 1)), Slots(n, Chose(es, x - 1)), Slots(n, ChoseBelow(es, x));
    assert forall i: nat :: i in c <==> i in a || i in b;
  }

  lemma NoneBelow(es: seq<nat>)
    ensures Slots(|es|, ChoseBelow(es, 0)) == {}
  {
    hide Slots;
  }

  lemma {:induction false} GroupStartIsSize(es: seq<nat>, x: nat)
    ensures |Slots(|es|, ChoseBelow(es, x))| == GroupStart(es, x)
  {
    hide Slots, Chose, ChoseBelow, Count;
    if x == 0 {
      NoneBelow(es);
    } else {
      var n := |es|;
      GroupStartIsSize(es, x - 1);
      CountIsSize(es, x - 1, n);
      assert es[..n] == es;
      BelowSplits(es, x, n);
    }
  }

  /** The slots sorted before position k: smaller experts, and the same expert's earlier arrivals. */
  lemma SortedBefore(es: seq<nat>, order: seq<nat>, k: nat, j: nat)
    requires IsStableArgsort(es, order) && k < |es|
    ensures j in order[..k]
            <==> j < |es| && (es[j] < es[order[k]] || (es[j] == es[order[k]] && j < order[k]))
  {
    if j < |es| {
      PermHitsAll(order, |es|, j);
      var p :| 0 <= p < |es| && order[p] == j;
      if p < k {
        assert order[..k][p] == j;
      } else {
        assert j !in order[..k];
      }
    }
  }

  /** Position k of the sorted list is the group start plus the arrival rank of the slot there. */
  lemma WithinIsArrivalRank(es: seq<nat>, order: seq<nat>, k: nat)
    requires IsStableArgsort(es, order) && k < |es|
    ensures k == GroupStart(es, es[order[k]]) + ArrivalRank(es, order[k])
  {
    var i := order[k];
    var x := es[i];
    var before := Elems(order[..k]);
    var less, same := Slots(|es|, ChoseBelow(es, x)), Slots(i, Chose(es, x));
    forall j: nat ensures j in before <==> j in less || j in same {
      SortedBefore(es, order, k, j);
    }
    assert NoDup(order[..k]);
    NoDupSize(order[..k]);
    hide IsStableArgsort, NoDup, IsPerm;
    GroupStartIsSize(es, x);
    CountIsSize(es, x, i);
    assert before == less + same && less !! same;
  }

  // ------------------------------------------------------------------
  // The cap and the simple greedy scan it refines.
  // ------------------------------------------------------------------

  predicate Dropped(es: seq<nat>, c: int, i: nat)
    requires i < |es|
  {
    ArrivalRank(es, i) >= c
  }

  function CapWeights(es: seq<nat>, ws: seq<real>, c: int): (r: seq<real>)
    requires |es| == |ws|
    ensures |r| == |ws|
    ensures forall i :: 0 <= i < |ws| ==> r[i] == if Dropped(es, c, i) then 0.0 else ws[i]
  {
    seq(|ws|, i requires 0 <= i < |ws| => if Dropped(es, c, i) then 0.0 else ws[i])
  }

  /** Arrival-order greedy: serve a slot while its expert has capacity left. */
  datatype Scan = Scan(kept: seq<bool>, taken: map<nat, nat>)

  function Taken(s: Scan, x: nat): nat {
    if x in s.taken then s.taken[x] else 0
  }

  function Greedy(es: seq<nat>, c: int): Scan {
    if es == [] then Scan([], map[])
    else
      var x := es[|es| - 1];
      var s := Greedy(es[..|es| - 1], c);
      if Taken(s, x) < c then Scan(s.kept + [true], s.taken[x := Taken(s, x) + 1])
      else Scan(s.kept + [false], s.taken)
  }

  function Clamp(c: int): nat {
    if c < 0 then 0 else c
  }

  /** The cap keeps what the greedy scan keeps, and each expert keeps min(count, C). */
  lemma {:induction false} CapIsGreedy(es: seq<nat>, c: int)
    ensures |Greedy(es, c).kept| == |es|
    ensures forall i :: 0 <= i < |es| ==> (Greedy(es, c).kept[i] <==> !Dropped(es, c, i))
    ensures forall x :: Taken(Greedy(es, c), x) == Min(Count(es, x), Clamp(c))
  {
    if es != [] {
      var n := |es| - 1;
      CapIsGreedy(es[..n], c);
      forall i | 0 <= i < n ensures Dropped(es, c, i) <==> Dropped(es[..n], c, i) {
        assert es[..n][..i] == es[..i];
      }
    }
  }

  function DroppedFlags(es: seq<nat>, c: int): (fs: seq<nat>)
    ensures |fs| == |es|
    ensures forall i :: 0 <= i < |es| ==> fs[i] == if Dropped(es, c, i) then 1 else 0
  {
    seq(|es|, i requires 0 <= i < |es| => if Dropped(es, c, i) then 1 else 0)
  }

  function Excesses(es: seq<nat>, c: int, experts: nat): (xs: seq<nat>)
    ensures |xs| == experts
    ensures forall x :: 0 <= x < experts ==> xs[x] == Clamp(Count(es, x) - Clamp(c))
  {
    seq(experts, x requires 0 <= x => Clamp(Count(es, x) - Clamp(c)))
  }

  /** The slots dropped in all are the experts' excesses over the capacity. */
  lemma {:induction false} DroppedIsExcess(es: seq<nat>, c: int, experts: nat)
    requires forall i :: 0 <= i < |es| ==> es[i] < experts
    ensures Sum(DroppedFlags(es, c)) == Sum(Excesses(es, c, experts))
  {
    if es == [] {
      SumZero(Excesses(es, c, experts));
    } else {
      var n := |es| - 1;
      var x := es[n];
      DroppedIsExcess(es[..n], c, experts);
      forall i | 0 <= i < n ensures Dropped(es, c, i) <==> Dropped(es[..n], c, i) {
        assert es[..n][..i] == es[..i];
      }
      assert DroppedFlags(es, c)[..n] == DroppedFlags(es[..n], c);
      var before := Excesses(es[..n], c, experts);
      SumUpdate(before, x, Excesses(es, c, experts)[x]);
      assert Excesses(es, c, experts) == before[x := Excesses(es, c, experts)[x]];
    }
  }

  /** Capping twice is capping once, and a larger capacity only keeps more. */
  lemma CapIdempotentAndMonotone(es: seq<nat>, ws: seq<real>, c: int, d: int)
    requires |es| == |ws| && c <= d
    ensures CapWeights(es, CapWeights(es, ws, c), c) == CapWeights(es, ws, c)
    ensures CapWeights(es, CapWeights(es, ws, d), c) == CapWeights(es, ws, c)
    ensures forall i :: 0 <= i < |es| && !Dropped(es, c, i) ==> !Dropped(es, d, i)
  {
  }

  /** A slot is dropped exactly when its expert was already full, so drops and overloads coincide. */
  lemma {:induction false} OverloadedIffDropped(es: seq<nat>, c: int, x: nat)
    requires c >= 0
    ensures Count(es, x) > c <==> exists i :: 0 <= i < |es| && es[i] == x && Dropped(es, c, i)
  {
    if es != [] {
      var n := |es| - 1;
      OverloadedIffDropped(es[..n], c, x);
      forall i | 0 <= i < n ensures Dropped(es, c, i) <==> Dropped(es[..n], c, i) {
        assert es[..n][..i] == es[..i];
      }
      if i :| 0 <= i < n && es[..n][i] == x && Dropped(es[..n], c, i) {
        assert es[i] == x && Dropped(es, c, i);
      } else if es[n] == x && Count(es, x) > c {
        assert Dropped(es, c, n);
      }
      assert forall i :: 0 <= i < n ==> es[..n][i] == es[i];
    }
  }

  // ------------------------------------------------------------------
  // The vectorised form, buffer by buffer.
  // ------------------------------------------------------------------

  method GroupCounts(es: seq<nat>, experts: nat) returns (counts: array<nat>)
    requires forall i :: 0 <= i < |es| ==> es[i] < experts
    ensures fresh(counts) && counts.Length == experts
    ensures forall x :: 0 <= x < experts ==> counts[x] == Count(es, x)
  {
    counts := new nat[experts](_ => 0);
    for i := 0 to |es|
      invariant forall x :: 0 <= x < experts ==> counts[x] == Count(es[..i], x)
    {
      assert es[..i + 1][..i] == es[..i];
      counts[es[i]] := counts[es[i]] + 1;
    }
    assert es[..|es|] == es;
  }

  method GroupStarts(es: seq<nat>, counts: array<nat>) returns (starts: array<nat>)
    requires forall x :: 0 <= x < counts.Length ==> counts[x] == Count(es, x)
    ensures fresh(starts) && starts.Length == counts.Length
    ensures forall x {:trigger starts[x]} :: 0 <= x < starts.Length ==> starts[x] == GroupStart(es, x)
  {
    starts := new nat[counts.Length](_ => 0);
    var running := 0;
    for x := 0 to counts.Length
      modifies starts
      invariant running == GroupStart(es, x)
      invariant forall y {:trigger starts[y]} :: 0 <= y < x ==> starts[y] == GroupStart(es, y)
    {
      assert GroupStart(es, x + 1) == GroupStart(es, x) + Count(es, x);
      starts[x] := running;
      running := running + counts[x];
    }
  }

  function Keys(es: seq<nat>): (ks: seq<real>)
    ensures |ks| == |es| && forall i :: 0 <= i < |es| ==> ks[i] == es[i] as real
  {
    seq(|es|, i requires 0 <= i < |es| => es[i] as real)
  }

  /** Sort by expert, rank inside the group, scatter back. */
  method Overflows(es: seq<nat>, experts: nat, c: int) returns (overflow: array<bool>)
    requires forall i :: 0 <= i < |es| ==> es[i] < experts
    ensures fresh(overflow) && overflow.Length == |es|
    ensures forall i :: 0 <= i < |es| ==> (overflow[i] <==> Dropped(es, c, i))
  {
    var n := |es|;
    var order := Sorting.StableSort(Keys(es));
    assert IsStableArgsort(es, order);
    var counts := GroupCounts(es, experts);
    var starts := GroupStarts(es, counts);
    overflow := new bool[n](_ => false);
    for k := 0 to n
      modifies overflow
      invariant forall p :: 0 <= p < k ==> (overflow[order[p]] <==> Dropped(es, c, order[p]))
    {
      WithinIsArrivalRank(es, order, k);
      var within := k - starts[es[order[k]]];
      overflow[order[k]] := within >= c;
    }
    forall i | 0 <= i < n ensures overflow[i] <==> Dropped(es, c, i) {
      PermHitsAll(order, n, i);
      var p :| 0 <= p < n && order[p] == i;
      assert overflow[order[p]] <==> Dropped(es, c, order[p]);
    }
  }

  /** masked_fill, and the sum of the mask. */
  method Mask(es: seq<nat>, ws: seq<real>, c: int, overflow: array<bool>) returns (capped: seq<real>, drops: nat)
    requires |es| == |ws| == overflow.Length
    requires forall i :: 0 <= i < |es| ==> (overflow[i] <==> Dropped(es, c, i))
    ensures capped == CapWeights(es, ws, c) && drops == Sum(DroppedFlags(es, c))
  {
    capped, drops := [], 0;
    for i := 0 to |es|
      invariant |capped| == i
      invariant forall j :: 0 <= j < i ==> capped[j] == if Dropped(es, c, j) then 0.0 else ws[j]
      invariant drops == Sum(DroppedFlags(es, c)[..i])
    {
      assert DroppedFlags(es, c)[..i + 1][..i] == DroppedFlags(es, c)[..i];
      capped := capped + [if overflow[i] then 0.0 else ws[i]];
      drops := drops + if overflow[i] then 1 else 0;
    }
    assert DroppedFlags(es, c)[..|es|] == DroppedFlags(es, c);
  }

  /**
   The capped weights and, when asked for, the number of drops. Batches whose capacity is under
   the minimum are returned unchanged; otherwise a slot loses its weight exactly when at least C
   earlier slots chose its expert.
   */
  method MoeExpertCap(es: seq<nat>, ws: seq<real>, experts: nat, factor: real, count: bool, minCapacity: int)
    returns (capped: seq<real>, dropped: Option<nat>)
    requires experts > 0 && |es| == |ws|
    requires forall i :: 0 <= i < |es| ==> es[i] < experts
    ensures dropped.Some? <==> count
    ensures var c := Capacity(factor, |es|, experts);
            if c < minCapacity then capped == ws && (count ==> dropped.value == 0)
            else
              && capped == CapWeights(es, ws, c)
              && (count ==> dropped.value == Sum(Excesses(es, c, experts)))
  {
    var c := Capacity(factor, |es|, experts);
    if c < minCapacity {
      return ws, if count then Some(0) else None;
    }
    var overflow := Overflows(es, experts, c);
    var drops;
    capped, drops := Mask(es, ws, c, overflow);
    DroppedIsExcess(es, c, experts);
    dropped := if count then Some(drops) else None;
  }
}
