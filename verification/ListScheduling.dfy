/**
 Late-binding claims as list scheduling: whichever worker is free first takes the next raw id.
 For every order table and all task costs the makespan is at most (2 - 1/m) of the best one.
 */
module ListScheduling {
  import opened Prelude

  ghost predicate Assigns(who: seq<nat>, m: nat) {
    forall k :: 0 <= k < |who| ==> who[k] < m
  }

  /** How long each worker is busy when raw id k, of cost costs[k], runs on worker who[k]. */
  ghost function Loads(costs: seq<nat>, who: seq<nat>, m: nat): (loads: seq<nat>)
    requires |costs| == |who| && Assigns(who, m)
    ensures |loads| == m
  {
    if who == [] then seq(m, _ => 0)
    else
      var n := |who| - 1;
      var before := Loads(costs[..n], who[..n], m);
      before[who[n] := before[who[n]] + costs[n]]
  }

  function Largest(s: seq<nat>): (x: nat)
    ensures forall i :: 0 <= i < |s| ==> s[i] <= x
    ensures s != [] ==> x in s
  {
    if s == [] then 0
    else
      var rest := Largest(s[..|s| - 1]);
      if rest < s[|s| - 1] || |s| == 1 then s[|s| - 1] else rest
  }

  ghost function Makespan(costs: seq<nat>, who: seq<nat>, m: nat): nat
    requires |costs| == |who| && Assigns(who, m)
  {
    Largest(Loads(costs, who, m))
  }

  /** When raw id k is claimed: its worker has just become free. */
  ghost function ClaimTime(costs: seq<nat>, who: seq<nat>, m: nat, k: nat): nat
    requires |costs| == |who| && Assigns(who, m) && k < |who|
  {
    Loads(costs[..k], who[..k], m)[who[k]]
  }

  /**
   Tickets go out in time order: no raw id is claimed before an earlier one, and no worker gives
   up (its last, failing claim) before the last raw id is claimed.
   */
  ghost predicate TicketOrder(costs: seq<nat>, who: seq<nat>, m: nat)
    requires |costs| == |who| && Assigns(who, m)
  {
    && (forall j, k :: 0 <= j < k < |who| ==> ClaimTime(costs, who, m, j) <= ClaimTime(costs, who, m, k))
    && (forall w, k :: 0 <= w < m && 0 <= k < |who| ==> ClaimTime(costs, who, m, k) <= Loads(costs, who, m)[w])
  }

  /** Every claim is by a worker that is free no later than any other. */
  ghost predicate Greedy(costs: seq<nat>, who: seq<nat>, m: nat)
    requires |costs| == |who| && Assigns(who, m)
  {
    forall k, w :: 0 <= k < |who| && 0 <= w < m ==>
      ClaimTime(costs, who, m, k) <= Loads(costs[..k], who[..k], m)[w]
  }

  lemma LoadsStep(costs: seq<nat>, who: seq<nat>, m: nat, j: nat)
    requires |costs| == |who| && Assigns(who, m) && j < |who|
    ensures Loads(costs[..j + 1], who[..j + 1], m)
            == var before := Loads(costs[..j], who[..j], m); before[who[j] := before[who[j]] + costs[j]]
  {
    assert costs[..j + 1][..j] == costs[..j] && who[..j + 1][..j] == who[..j];
  }

  /** From the claim of k on, no worker's load ends before that claim. */
  lemma {:induction false} BusyFrom(costs: seq<nat>, who: seq<nat>, m: nat, k: nat, w: nat, j: nat)
    requires |costs| == |who| && Assigns(who, m) && TicketOrder(costs, who, m)
    requires k <= j <= |who| && k < |who| && w < m
    ensures Loads(costs[..j], who[..j], m)[w] >= ClaimTime(costs, who, m, k)
    decreases |who| - j
  {
    if j == |who| {
      assert costs[..j] == costs && who[..j] == who;
    } else {
      BusyFrom(costs, who, m, k, w, j + 1);
      LoadsStep(costs, who, m, j);
      assert k < j ==> ClaimTime(costs, who, m, k) <= ClaimTime(costs, who, m, j);
    }
  }

  /** The ticket counter alone makes the claims greedy. */
  lemma TicketsAreGreedy(costs: seq<nat>, who: seq<nat>, m: nat)
    requires |costs| == |who| && Assigns(who, m) && TicketOrder(costs, who, m)
    ensures Greedy(costs, who, m)
  {
    forall k, w | 0 <= k < |who| && 0 <= w < m
      ensures ClaimTime(costs, who, m, k) <= Loads(costs[..k], who[..k], m)[w]
    {
      BusyFrom(costs, who, m, k, w, k);
    }
  }

  lemma {:induction false} LoadsSum(costs: seq<nat>, who: seq<nat>, m: nat)
    requires |costs| == |who| && Assigns(who, m)
    ensures Sum(Loads(costs, who, m)) == Sum(costs)
  {
    if who == [] {
      SumZero(Loads(costs, who, m));
    } else {
      var n := |who| - 1;
      LoadsSum(costs[..n], who[..n], m);
      var before := Loads(costs[..n], who[..n], m);
      SumUpdate(before, who[n], before[who[n]] + costs[n]);
    }
  }

  lemma Succ(m: nat, x: nat)
    requires m > 0
    ensures m * x == (m - 1) * x + x
  {
  }

  lemma {:induction false} SumBelow(s: seq<nat>, x: nat)
    requires forall i :: 0 <= i < |s| ==> s[i] <= x
    ensures Sum(s) <= |s| * x
  {
    if s != [] {
      SumBelow(s[..|s| - 1], x);
      Succ(|s|, x);
    }
  }

  lemma {:induction false} SumAbove(s: seq<nat>, x: nat)
    requires forall i :: 0 <= i < |s| ==> s[i] >= x
    ensures Sum(s) >= |s| * x
  {
    if s != [] {
      SumAbove(s[..|s| - 1], x);
      Succ(|s|, x);
    }
  }

  lemma {:induction false} LoadsGrow(costs: seq<nat>, who: seq<nat>, m: nat, j: nat)
    requires |costs| == |who| && Assigns(who, m) && j < |who|
    ensures Loads(costs, who, m)[who[j]] >= costs[j]
    decreases |who|
  {
    var n := |who| - 1;
    if j < n { LoadsGrow(costs[..n], who[..n], m, j); }
  }

  /** No assignment finishes before the average load, nor before any of its tasks. */
  lemma MakespanFloor(costs: seq<nat>, who: seq<nat>, m: nat)
    requires |costs| == |who| && Assigns(who, m)
    ensures Sum(costs) <= m * Makespan(costs, who, m)
    ensures forall k :: 0 <= k < |costs| ==> costs[k] <= Makespan(costs, who, m)
  {
    LoadsSum(costs, who, m);
    SumBelow(Loads(costs, who, m), Makespan(costs, who, m));
    forall k | 0 <= k < |costs| ensures costs[k] <= Makespan(costs, who, m) {
      LoadsGrow(costs, who, m, k);
    }
  }

  /** The raw id a worker finishes with ended when that worker's load did. */
  lemma {:induction false} LastOf(costs: seq<nat>, who: seq<nat>, m: nat, w: nat) returns (k: nat)
    requires |costs| == |who| && Assigns(who, m) && w < m && Loads(costs, who, m)[w] > 0
    ensures k < |who| && ClaimTime(costs, who, m, k) + costs[k] == Loads(costs, who, m)[w]
    decreases |who|
  {
    var n := |who| - 1;
    assert costs[..n + 1] == costs && who[..n + 1] == who;
    LoadsStep(costs, who, m, n);
    if who[n] == w {
      k := n;
    } else {
      k := LastOf(costs[..n], who[..n], m, w);
      assert costs[..n][..k] == costs[..k] && who[..n][..k] == who[..k];
    }
  }

  lemma {:induction false} SumPrefix(costs: seq<nat>, k: nat)
    requires k < |costs|
    ensures Sum(costs[..k]) + costs[k] <= Sum(costs)
    decreases |costs|
  {
    var n := |costs| - 1;
    if k < n {
      SumPrefix(costs[..n], k);
      assert costs[..n][..k] == costs[..k];
    }
  }

  /** When the claim of k went out, every worker was busy until then. */
  lemma BusyUntilClaim(costs: seq<nat>, who: seq<nat>, m: nat, k: nat)
    requires |costs| == |who| && Assigns(who, m) && Greedy(costs, who, m) && k < |who|
    ensures m * ClaimTime(costs, who, m, k) + costs[k] <= Sum(costs)
  {
    LoadsSum(costs[..k], who[..k], m);
    SumAbove(Loads(costs[..k], who[..k], m), ClaimTime(costs, who, m, k));
    SumPrefix(costs, k);
  }

  /** The tail bound: m makespans are at most the total work and m - 1 times the task that ends last. */
  lemma TailBound(costs: seq<nat>, who: seq<nat>, m: nat) returns (last: nat)
    requires |costs| == |who| && Assigns(who, m) && Greedy(costs, who, m) && Makespan(costs, who, m) > 0
    ensures last < |costs|
    ensures ClaimTime(costs, who, m, last) + costs[last] == Makespan(costs, who, m)
    ensures m * Makespan(costs, who, m) <= Sum(costs) + (m - 1) * costs[last]
  {
    var loads := Loads(costs, who, m);
    var span := Makespan(costs, who, m);
    var w :| 0 <= w < m && loads[w] == span;
    last := LastOf(costs, who, m, w);
    BusyUntilClaim(costs, who, m, last);
    Split(m, ClaimTime(costs, who, m, last), costs[last]);
  }

  lemma Split(m: nat, t: nat, c: nat)
    requires m > 0
    ensures m * (t + c) == m * t + (m - 1) * c + c
  {
  }

  lemma Scale(m: nat, x: nat, y: nat)
    requires x <= y
    ensures m * x <= m * y
  {
  }

  lemma Combine(m: nat, span: nat, total: nat, last: nat, best: nat)
    requires m > 0 && m * span <= total + (m - 1) * last && total <= m * best && last <= best
    ensures m * span <= (2 * m - 1) * best
  {
    Scale(m - 1, last, best);
    assert (2 * m - 1) * best == m * best + (m - 1) * best;
  }

  lemma GreedyFloor(costs: seq<nat>, who: seq<nat>, m: nat, best: nat)
    requires |costs| == |who| && m > 0 && Assigns(who, m) && Greedy(costs, who, m)
    requires Sum(costs) <= m * best && forall k :: 0 <= k < |costs| ==> costs[k] <= best
    ensures m * Makespan(costs, who, m) <= (2 * m - 1) * best
  {
    hide Makespan, Sum, Greedy;
    var span := Makespan(costs, who, m);
    if span > 0 {
      var last := TailBound(costs, who, m);
      Combine(m, span, Sum(costs), costs[last], best);
    } else {
      Combine(m, span, Sum(costs), 0, best);
    }
  }

  // ------------------------------------------------------------------
  // Order tables.
  // ------------------------------------------------------------------

  /** The costs of the tasks in the order the raw ids are claimed. */
  function Claimed(cost: seq<nat>, task: seq<nat>): (c: seq<nat>)
    requires forall k :: 0 <= k < |task| ==> task[k] < |cost|
    ensures |c| == |task| && forall k :: 0 <= k < |task| ==> c[k] == cost[task[k]]
  {
    seq(|task|, k requires 0 <= k < |task| => cost[task[k]])
  }

  function Picked(cost: seq<nat>, p: seq<nat>): (xs: seq<nat>)
    ensures |xs| == |cost| && forall i :: 0 <= i < |cost| ==> xs[i] == if i in p then cost[i] else 0
  {
    seq(|cost|, i requires 0 <= i < |cost| => if i in p then cost[i] else 0)
  }

  lemma PickedStep(cost: seq<nat>, p: seq<nat>, i: nat)
    requires i < |cost| && i !in p
    ensures Sum(Picked(cost, p + [i])) == Sum(Picked(cost, p)) + cost[i]
  {
    SumUpdate(Picked(cost, p), i, cost[i]);
    assert Picked(cost, p + [i]) == Picked(cost, p)[i := cost[i]];
  }

  lemma {:induction false} ClaimedSum(cost: seq<nat>, p: seq<nat>)
    requires NoDup(p) && forall k :: 0 <= k < |p| ==> p[k] < |cost|
    ensures Sum(Claimed(cost, p)) == Sum(Picked(cost, p))
  {
    if p == [] {
      SumZero(Picked(cost, p));
    } else {
      hide Picked;
      var n := |p| - 1;
      ClaimedSum(cost, p[..n]);
      assert Claimed(cost, p)[..n] == Claimed(cost, p[..n]);
      assert p[n] !in p[..n] && p == p[..n] + [p[n]];
      PickedStep(cost, p[..n], p[n]);
    }
  }

  /**
   The safety floor: under any order table, any task costs and any ticket-ordered run, m makespans
   are at most 2m - 1 makespans of any assignment of the tasks to m workers, however clever.
   */
  lemma ClaimsWithinFactor(cost: seq<nat>, task: seq<nat>, who: seq<nat>, other: seq<nat>, m: nat)
    requires m > 0 && IsPerm(task, |cost|) && |who| == |other| == |cost|
    requires Assigns(who, m) && Assigns(other, m) && TicketOrder(Claimed(cost, task), who, m)
    ensures m * Makespan(Claimed(cost, task), who, m) <= (2 * m - 1) * Makespan(cost, other, m)
  {
    TicketsAreGreedy(Claimed(cost, task), who, m);
    MakespanFloor(cost, other, m);
    ClaimedSum(cost, task);
    forall i | 0 <= i < |cost| ensures Picked(cost, task)[i] == cost[i] {
      PermHitsAll(task, |cost|, i);
    }
    assert Picked(cost, task) == cost;
    GreedyFloor(Claimed(cost, task), who, m, Makespan(cost, other, m));
  }

  // ------------------------------------------------------------------
  // The task that starts last.
  // ------------------------------------------------------------------

  /** A ticket-ordered schedule in which k ends last, with cost y, and another task, of cost x, starts last. */
  ghost predicate StartsLast(costs: seq<nat>, who: seq<nat>, m: nat, k: nat, x: nat, y: nat) {
    && |costs| == |who| && Assigns(who, m) && TicketOrder(costs, who, m)
    && k + 1 < |who| && costs[k] == y && costs[|costs| - 1] == x
    && ClaimTime(costs, who, m, k) + y == Makespan(costs, who, m)
  }

  /** The tail bound with the task that starts last in place of the one that ends last. */
  ghost predicate StartBound(costs: seq<nat>, who: seq<nat>, m: nat, x: nat)
    requires |costs| == |who| && Assigns(who, m) && m > 0
  {
    m * Makespan(costs, who, m) <= Sum(costs) + (m - 1) * x
  }

  lemma StartBoundHolds(costs: seq<nat>, who: seq<nat>, m: nat, k: nat, x: nat, y: nat)
    requires m > 0 && StartsLast(costs, who, m, k, x, y) && (m - 1) * y <= m * x
    ensures StartBound(costs, who, m, x)
  {
    var n := |costs| - 1;
    TicketsAreGreedy(costs, who, m);
    LoadsSum(costs[..k], who[..k], m);
    SumAbove(Loads(costs[..k], who[..k], m), ClaimTime(costs, who, m, k));
    SumPrefix(costs[..n], k);
    assert costs[..n][..k] == costs[..k];
    Split(m, ClaimTime(costs, who, m, k), y);
    Succ(m, x);
  }

  /** Two tasks, one for each of two workers, the short one started last. */
  lemma StartBoundFails(m: nat, x: nat, y: nat)
    requires m > 1 && (m - 1) * y > m * x
    ensures StartsLast([y, x], [0, 1], m, 0, x, y) && !StartBound([y, x], [0, 1], m, x)
  {
    var costs, who := [y, x], [0, 1];
    assert costs[..0] == [] && who[..0] == [] && costs[..2] == costs && who[..2] == who;
    LoadsStep(costs, who, m, 0);
    LoadsStep(costs, who, m, 1);
    assert Sum(costs) == y + x by {
      assert costs[..1] == [y] && [y][..0] == [] && Sum([y]) == y;
    }
    Succ(m, x);
    Succ(m, y);
    if x >= y { Scale(m, y, x); }
    var loads := Loads(costs, who, m);
    assert loads[0] == y && loads[1] == x && forall w :: 2 <= w < m ==> loads[w] == 0;
    assert ClaimTime(costs, who, m, 0) == 0 && ClaimTime(costs, who, m, 1) == 0;
    assert Makespan(costs, who, m) == y;
  }

  /**
   The task that starts last bounds the tail of every such schedule exactly when m times its cost is
   at least m - 1 times the cost of the one that ends last.
   */
  lemma LastStartedIff(m: nat, x: nat, y: nat)
    requires m > 0
    ensures (forall costs, who, k :: StartsLast(costs, who, m, k, x, y) ==> StartBound(costs, who, m, x))
            <==> (m - 1) * y <= m * x
  {
    if (m - 1) * y <= m * x {
      forall costs, who, k | StartsLast(costs, who, m, k, x, y) ensures StartBound(costs, who, m, x) {
        StartBoundHolds(costs, who, m, k, x, y);
      }
    } else {
      StartBoundFails(m, x, y);
      var costs, who: seq<nat> := [y, x], [0, 1];
      assert StartsLast(costs, who, m, 0, x, y);
    }
  }

  /**
   The tail term is the task that ends last. The one started last does not do: two workers, one long
   task started first and two short ones.
   */
  lemma LastStartedIsNotEnough()
    ensures var costs, who := [10, 1, 1], [0, 1, 1];
            Greedy(costs, who, 2) && 2 * Makespan(costs, who, 2) > Sum(costs) + (2 - 1) * costs[2]
  {
    var costs, who := [10, 1, 1], [0, 1, 1];
    assert costs[..0] == [] && who[..0] == [] && costs[..3] == costs && who[..3] == who;
    LoadsStep(costs, who, 2, 0);
    LoadsStep(costs, who, 2, 1);
    LoadsStep(costs, who, 2, 2);
    assert Sum(costs) == 12 by {
      assert costs[..2] == [10, 1] && [10, 1][..1] == [10] && [10][..0] == [];
    }
    hide Loads, Sum;
    assert Loads([], [], 2) == [0, 0] && Loads(costs, who, 2) == [10, 2];
  }
}
