/**
 The meaning of the woven pi remap: which task a block serves, given one frozen
 snapshot of the order table and of the control header.

 Table entries are read as unsigned 32-bit words, so every comparison is on naturals.
 The capacity of a table is the compile-time task limit of the pass.
 */
module Remap {
  import opened Prelude

  /** How the kernel reaches the order table: not at all, directly, or through a pointer word. */
  datatype OrderChannel =
    | Unarmed
    | Direct(table: seq<nat>)
    | Indirect(capacity: nat, pointee: Option<seq<nat>>)
  {
    function Capacity(): nat {
      match this
      case Unarmed => 0
      case Direct(t) => |t|
      case Indirect(n, _) => n
    }

    /** A pointed-to table has as many entries as the pass was told. */
    predicate Sized() {
      Indirect? && pointee.Some? ==> |pointee.value| == capacity
    }
  }

  /** A null pointer reads as the capacity, a value meant to be out of every grid. */
  function Fetch(ch: OrderChannel, pid: nat): nat
    requires ch.Sized() && pid < ch.Capacity()
  {
    match ch
    case Direct(t) => t[pid]
    case Indirect(n, p) => if p.None? then n else p.value[pid]
  }

  /** The remap woven into a kernel entry; stamp is None when no control header is armed. */
  function WeaveRemap(ch: OrderChannel, stamp: Option<nat>, grid: nat, pid: nat): nat
    requires ch.Sized()
  {
    if pid < ch.Capacity() then
      var mapped := Fetch(ch, pid);
      var sizeOk := stamp.None? || stamp.value == 0 || stamp.value == grid;
      if mapped < grid && sizeOk then mapped else pid
    else
      pid
  }

  /** The remap inside the persistent driver: it clamps to num_tasks, not to the grid. */
  function DriverRemap(order: Option<seq<nat>>, stamp: nat, numTasks: nat, raw: nat): nat {
    if order.Some? && raw < |order.value| then
      var mapped := order.value[raw];
      if mapped < numTasks && (stamp == 0 || stamp == numTasks) then mapped else raw
    else
      raw
  }

  function WeaveTasks(ch: OrderChannel, stamp: Option<nat>, grid: nat): (ts: seq<nat>)
    requires ch.Sized()
    ensures |ts| == grid
    ensures forall pid :: 0 <= pid < grid ==> ts[pid] == WeaveRemap(ch, stamp, grid, pid)
  {
    seq(grid, pid requires 0 <= pid => WeaveRemap(ch, stamp, grid, pid))
  }

  function DriverTasks(order: Option<seq<nat>>, stamp: nat, numTasks: nat, n: nat): (ts: seq<nat>)
    ensures |ts| == n
    ensures forall raw :: 0 <= raw < n ==> ts[raw] == DriverRemap(order, stamp, numTasks, raw)
  {
    seq(n, raw requires 0 <= raw => DriverRemap(order, stamp, numTasks, raw))
  }

  predicate IsIdentity(table: seq<nat>) {
    forall i :: 0 <= i < |table| ==> table[i] == i
  }

  /** The first n entries permute the first n tasks: what an install of n tiles leaves. */
  ghost predicate Permutes(table: seq<nat>, n: nat) {
    n <= |table| && IsPerm(table[..n], n)
  }

  // ------------------------------------------------------------------
  // When a clamped table is a bijection.
  // ------------------------------------------------------------------

  /** Order sizes a kernel accepts for a range of this size; 0 is unchecked. */
  predicate Admits(stamp: nat, size: nat) {
    stamp == 0 || stamp == size
  }

  /** Entries at or past limit are read as their own index. */
  function Remapped(table: seq<nat>, limit: nat, grid: nat): (ts: seq<nat>)
    ensures |ts| == grid
    ensures forall i :: 0 <= i < grid ==> ts[i] == if i < |table| && table[i] < limit then table[i] else i
  {
    seq(grid, i requires 0 <= i => if i < |table| && table[i] < limit then table[i] else i)
  }

  /** Entry i of the table is read by the grid and survives the clamp. */
  predicate Live(table: seq<nat>, limit: nat, grid: nat, i: nat) {
    i < grid && i < |table| && table[i] < limit
  }

  /** The entries that survive the clamp are different, and each names one that survives it too. */
  predicate Shuffles(table: seq<nat>, limit: nat, grid: nat) {
    && (forall i :: 0 <= i < |table| && Live(table, limit, grid, i) ==> Live(table, limit, grid, table[i]))
    && (forall i, j :: 0 <= i < j < |table| && Live(table, limit, grid, i) && Live(table, limit, grid, j) ==>
          table[i] != table[j])
  }

  /** Whatever the table, the limit and the grid, the clamped table is a bijection exactly then. */
  lemma RemappedBijectiveIff(table: seq<nat>, limit: nat, grid: nat)
    ensures IsPerm(Remapped(table, limit, grid), grid) <==> Shuffles(table, limit, grid)
  {
    var ts := Remapped(table, limit, grid);
    if IsPerm(ts, grid) {
      forall i | 0 <= i < |table| && Live(table, limit, grid, i) ensures Live(table, limit, grid, table[i]) {
        var v := table[i];
        assert ts[i] == v < grid && (i != v ==> ts[i] != ts[v]);
      }
      forall i, j | 0 <= i < j < |table| && Live(table, limit, grid, i) && Live(table, limit, grid, j)
        ensures table[i] != table[j]
      {
        assert ts[i] != ts[j];
      }
    }
    if Shuffles(table, limit, grid) {
      forall i | 0 <= i < grid
        ensures ts[i] < grid && (Live(table, limit, grid, i) ==> Live(table, limit, grid, ts[i]))
      {
      }
    }
  }

  lemma PrefixShuffles(table: seq<nat>, n: nat)
    requires Permutes(table, n)
    ensures Shuffles(table, n, n)
  {
    assert forall i :: 0 <= i < n ==> table[i] == table[..n][i];
  }

  /** When a launch of this grid is served soundly: unarmed, rejected, or shuffled within itself. */
  predicate Sound(ch: OrderChannel, stamp: Option<nat>, grid: nat) {
    || ch.Unarmed? || (stamp.Some? && !Admits(stamp.value, grid))
    || (ch.Direct? && Shuffles(ch.table, grid, grid))
    || (ch.Indirect? && ch.pointee.Some? && Shuffles(ch.pointee.value, grid, grid))
    || (ch.Indirect? && ch.pointee.None? && (grid <= ch.capacity || ch.capacity == 0))
  }

  /** Through every channel, with any table and stamp, a launch serves each tile once exactly then. */
  lemma WeaveRemapBijective(ch: OrderChannel, stamp: Option<nat>, grid: nat)
    requires ch.Sized()
    ensures IsPerm(WeaveTasks(ch, stamp, grid), grid) <==> Sound(ch, stamp, grid)
  {
    var ts := WeaveTasks(ch, stamp, grid);
    if ch.Unarmed? || (stamp.Some? && !Admits(stamp.value, grid)) {
      assert ts == Identity(grid);
    } else if ch.Indirect? && ch.pointee.None? {
      if grid > ch.capacity > 0 { assert ts[0] == ts[ch.capacity]; }
    } else {
      var table := if ch.Direct? then ch.table else ch.pointee.value;
      RemappedBijectiveIff(table, grid, grid);
      assert ts == Remapped(table, grid, grid);
    }
  }

  /** It serves the table itself exactly when the stamp admits it and no entry is past the grid. */
  lemma WeaveAppliesOrder(table: seq<nat>, stamp: nat, grid: nat)
    ensures !Admits(stamp, grid) ==> WeaveTasks(Direct(table), Some(stamp), grid) == Identity(grid)
    ensures Admits(stamp, grid) && grid <= |table| ==>
              (WeaveTasks(Direct(table), Some(stamp), grid) == table[..grid]
               <==> forall i :: 0 <= i < grid ==> table[i] < grid)
    ensures WeaveTasks(Indirect(|table|, Some(table)), Some(stamp), grid)
            == WeaveTasks(Direct(table), Some(stamp), grid)
  {
    var ts := WeaveTasks(Direct(table), Some(stamp), grid);
    if Admits(stamp, grid) && grid <= |table| && ts == table[..grid] {
      forall i | 0 <= i < grid ensures table[i] < grid { assert ts[i] == table[..grid][i]; }
    }
  }

  // ------------------------------------------------------------------
  // When a snapshot serves launches of every size.
  // ------------------------------------------------------------------

  ghost predicate ServesEveryGrid(table: seq<nat>, stamp: nat) {
    forall grid: nat :: IsPerm(WeaveTasks(Direct(table), Some(stamp), grid), grid)
  }

  /** Each entry is its own inverse. */
  predicate SelfInverse(table: seq<nat>, i: nat)
    requires i < |table|
  {
    table[i] < |table| && table[table[i]] == i
  }

  predicate Involution(table: seq<nat>) {
    forall i :: 0 <= i < |table| ==> SelfInverse(table, i)
  }

  lemma InvolutionShuffles(table: seq<nat>, grid: nat)
    requires Involution(table)
    ensures Shuffles(table, grid, grid)
  {
    forall i | 0 <= i < |table| && Live(table, grid, grid, i) ensures Live(table, grid, grid, table[i]) {
      assert SelfInverse(table, i);
    }
    forall i, j | 0 <= i < j < |table| ensures table[i] != table[j] {
      assert SelfInverse(table, i) && SelfInverse(table, j);
    }
  }

  lemma ShuffleHits(table: seq<nat>, grid: nat, i: nat) returns (j: nat)
    requires Shuffles(table, grid, grid) && i < grid
    ensures j < grid && (if Live(table, grid, grid, j) then table[j] else j) == i
  {
    RemappedBijectiveIff(table, grid, grid);
    hide Shuffles;
    var ts := Remapped(table, grid, grid);
    PermHitsAll(ts, grid, i);
    j :| 0 <= j < |ts| && ts[j] == i;
  }

  /** An entry that points ahead must be pointed back at: compare the grids that end before and after it. */
  lemma PointsBack(table: seq<nat>, i: nat)
    requires i < |table| && table[i] > i
    requires Shuffles(table, table[i], table[i]) && Shuffles(table, table[i] + 1, table[i] + 1)
    ensures SelfInverse(table, i)
  {
    var v := table[i];
    var j := ShuffleHits(table, v + 1, i);
    assert Live(table, v + 1, v + 1, i) && Live(table, v + 1, v + 1, v);
    assert j < v && j != i ==> Live(table, v, v, j);
  }

  lemma {:induction false} ShufflesAreInverse(table: seq<nat>, i: nat)
    requires i < |table| && forall grid: nat :: Shuffles(table, grid, grid)
    ensures SelfInverse(table, i)
  {
    var w := table[i];
    if w > i {
      assert Shuffles(table, w, w) && Shuffles(table, w + 1, w + 1);
      PointsBack(table, i);
    } else if w < i {
      assert Shuffles(table, i + 1, i + 1);
      assert Live(table, i + 1, i + 1, i) && Live(table, i + 1, i + 1, w);
      ShufflesAreInverse(table, w);
      var u := table[w];
      assert Live(table, i + 1, i + 1, u);
      assert table[u] == w == table[i];
    }
  }

  /**
   A snapshot serves launches of every size exactly when its stamped part shuffles within itself, or,
   unstamped, when the table is its own inverse. Any other unstamped order breaks some launch.
   */
  lemma EveryGridIff(table: seq<nat>, stamp: nat)
    ensures ServesEveryGrid(table, stamp)
            <==> if stamp == 0 then Involution(table) else Shuffles(table, stamp, stamp)
  {
    forall grid: nat
      ensures IsPerm(WeaveTasks(Direct(table), Some(stamp), grid), grid)
              <==> !Admits(stamp, grid) || Shuffles(table, grid, grid)
    {
      WeaveRemapBijective(Direct(table), Some(stamp), grid);
    }
    if stamp == 0 && Involution(table) {
      forall grid: nat ensures Shuffles(table, grid, grid) { InvolutionShuffles(table, grid); }
    }
    if stamp == 0 && ServesEveryGrid(table, stamp) {
      forall grid: nat ensures Shuffles(table, grid, grid) {
        assert IsPerm(WeaveTasks(Direct(table), Some(stamp), grid), grid);
      }
      forall i | 0 <= i < |table| ensures SelfInverse(table, i) { ShufflesAreInverse(table, i); }
    }
    if stamp > 0 && ServesEveryGrid(table, stamp) {
      assert IsPerm(WeaveTasks(Direct(table), Some(stamp), stamp), stamp);
    }
  }

  /**
   The null-pointer fail-safe is the identity exactly on grids no larger than the capacity,
   unless the stamp already rejects the table.
   */
  lemma NullPointerIsIdentityIff(capacity: nat, stamp: nat, grid: nat)
    requires capacity > 0
    ensures (forall pid :: 0 <= pid < grid ==>
               WeaveRemap(Indirect(capacity, None), Some(stamp), grid, pid) == pid)
            <==> (grid <= capacity || (stamp != 0 && stamp != grid))
  {
    if grid > capacity && (stamp == 0 || stamp == grid) {
      assert WeaveRemap(Indirect(capacity, None), Some(stamp), grid, 0) == capacity;
    }
  }

  /** A permutation of k entries followed by the identity: what an unstamped install leaves. */
  ghost predicate PrefixPerm(table: seq<nat>, k: nat) {
    && Permutes(table, k)
    && forall i :: k <= i < |table| ==> table[i] == i
  }

  function ThreeCycle(k: nat, capacity: nat): (t: seq<nat>)
    requires 3 <= k <= capacity
  {
    Identity(capacity)[0 := 1][1 := k - 1][k - 1 := 0]
  }

  lemma UncheckedPrefixOk(table: seq<nat>, k: nat, grid: nat)
    requires PrefixPerm(table, k) && (k <= grid || grid <= 1)
    ensures IsPerm(WeaveTasks(Direct(table), Some(0), grid), grid)
  {
    var ts := WeaveTasks(Direct(table), Some(0), grid);
    if k <= grid {
      forall i, j | 0 <= i < j < grid ensures ts[i] != ts[j] {
        if j < k {
          assert table[..k][i] != table[..k][j];
        } else if i < k {
          assert table[..k][i] < k;
        }
      }
      forall i | 0 <= i < grid ensures ts[i] < grid {
        if i < k { assert table[..k][i] < k; }
      }
    }
  }

  /**
   Without a stamp the per-entry clamp alone keeps every permutation of size k bijective
   on a grid exactly when the grid holds all of it (or is a single block).
   */
  lemma UncheckedRemapSafeIff(k: nat, grid: nat, capacity: nat)
    requires k <= capacity
    ensures (forall table: seq<nat> :: |table| == capacity && PrefixPerm(table, k) ==>
               IsPerm(WeaveTasks(Direct(table), Some(0), grid), grid))
            <==> (k <= grid || grid <= 1)
  {
    if k <= grid || grid <= 1 {
      forall table: seq<nat> | |table| == capacity && PrefixPerm(table, k)
        ensures IsPerm(WeaveTasks(Direct(table), Some(0), grid), grid)
      {
        UncheckedPrefixOk(table, k, grid);
      }
    } else {
      var table := ThreeCycle(k, capacity);
      assert PrefixPerm(table, k);
      var ts := WeaveTasks(Direct(table), Some(0), grid);
      assert ts[0] == 1 && ts[1] == 1;
    }
  }

  /** When the driver serves n raw ids soundly: no order, a rejected one, or one that shuffles within itself. */
  predicate DriverSound(order: Option<seq<nat>>, stamp: nat, numTasks: nat, n: nat) {
    order.None? || !Admits(stamp, numTasks) || Shuffles(order.value, numTasks, n)
  }

  /**
   The driver serves n raw ids bijectively exactly then: the claim loop with n equal to num_tasks, the
   static path with n the grid. An unstamped order counts like one stamped for num_tasks.
   */
  lemma DriverRemapBijective(order: Option<seq<nat>>, stamp: nat, numTasks: nat, n: nat)
    ensures IsPerm(DriverTasks(order, stamp, numTasks, n), n) <==> DriverSound(order, stamp, numTasks, n)
  {
    var ts := DriverTasks(order, stamp, numTasks, n);
    if order.None? || !Admits(stamp, numTasks) {
      assert ts == Identity(n);
    } else {
      RemappedBijectiveIff(order.value, numTasks, n);
      assert ts == Remapped(order.value, numTasks, n);
    }
  }

  /** The claim loop serves the table itself exactly when the stamp admits it and no entry is past num_tasks. */
  lemma DriverAppliesOrder(table: seq<nat>, stamp: nat, numTasks: nat)
    ensures !Admits(stamp, numTasks) ==> DriverTasks(Some(table), stamp, numTasks, numTasks) == Identity(numTasks)
    ensures Admits(stamp, numTasks) && numTasks <= |table| ==>
              (DriverTasks(Some(table), stamp, numTasks, numTasks) == table[..numTasks]
               <==> forall i :: 0 <= i < numTasks ==> table[i] < numTasks)
  {
    var ts := DriverTasks(Some(table), stamp, numTasks, numTasks);
    if Admits(stamp, numTasks) && numTasks <= |table| && ts == table[..numTasks] {
      forall i | 0 <= i < numTasks ensures table[i] < numTasks { assert ts[i] == table[..numTasks][i]; }
    }
  }

  /** With num_tasks == 0 the clamp rejects every entry: the stock path is the identity. */
  lemma DisarmedDriverIsIdentity(order: Option<seq<nat>>, stamp: nat, n: nat)
    ensures DriverTasks(order, stamp, 0, n) == Identity(n)
  {
  }

  function StaleTail(nt: nat, capacity: nat): (t: seq<nat>)
    requires 0 < nt < capacity
  {
    Identity(capacity)[nt := 0]
  }

  function SwapEnds(nt: nat, capacity: nat): (t: seq<nat>)
    requires 1 < nt <= capacity
  {
    Identity(capacity)[0 := nt - 1][nt - 1 := 0]
  }

  /**
   The driver's stock path over a static grid, with an order stamped for num_tasks tiles:
   it is a bijection for every such table exactly when the grid is that size (or empty,
   or the table ends there, so that no stale tail can be read).
   */
  lemma StockDriverBijectiveIff(nt: nat, grid: nat, capacity: nat)
    requires 0 < nt <= capacity
    ensures (forall table: seq<nat> :: |table| == capacity && Permutes(table, nt) ==>
               IsPerm(DriverTasks(Some(table), nt, nt, grid), grid))
            <==> (grid == nt || grid == 0 || (grid > nt && capacity == nt))
  {
    if grid == nt || grid == 0 || (grid > nt && capacity == nt) {
      forall table: seq<nat> | |table| == capacity && Permutes(table, nt)
        ensures IsPerm(DriverTasks(Some(table), nt, nt, grid), grid)
      {
        var ts := DriverTasks(Some(table), nt, nt, grid);
        if grid != 0 {
          assert forall i :: 0 <= i < nt ==> ts[i] == table[..nt][i];
        }
      }
    } else if grid < nt {
      var table := SwapEnds(nt, capacity);
      assert Permutes(table, nt);
      var ts := DriverTasks(Some(table), nt, nt, grid);
      assert ts[0] == nt - 1;
    } else {
      var table := StaleTail(nt, capacity);
      assert Permutes(table, nt);
      var ts := DriverTasks(Some(table), nt, nt, grid);
      assert ts[0] == 0 && ts[nt] == 0;
    }
  }

  /**
   With the order table moved to a device tensor, the arena words the driver still reads
   are the two halves of that tensor's address over the neutral table written at start-up.
   */
  function ArenaWordsOnDeviceChannel(address: nat, capacity: nat): (t: seq<nat>)
    ensures |t| == capacity
    ensures forall i :: 0 <= i < capacity ==>
              t[i] == if i == 0 then address % U32 else if i == 1 then address / U32 else i
  {
    seq(capacity, i requires 0 <= i => if i == 0 then address % U32 else if i == 1 then address / U32 else i)
  }

  /**
   So the driver serves the identity, whatever pi the tensor holds, exactly when both halves
   of the address fall outside 0..num_tasks-1 or equal their own index, or the stamp fails.
   */
  lemma DriverIgnoresDeviceOrderIff(address: nat, stamp: nat, numTasks: nat, capacity: nat)
    requires 2 <= capacity && 2 <= numTasks
    ensures DriverTasks(Some(ArenaWordsOnDeviceChannel(address, capacity)), stamp, numTasks, numTasks)
            == Identity(numTasks)
            <==> (&& (address % U32 == 0 || address % U32 >= numTasks || (stamp != 0 && stamp != numTasks))
                  && (address / U32 == 1 || address / U32 >= numTasks || (stamp != 0 && stamp != numTasks)))
  {
    var t := ArenaWordsOnDeviceChannel(address, capacity);
    var ts := DriverTasks(Some(t), stamp, numTasks, numTasks);
    assert ts[0] == DriverRemap(Some(t), stamp, numTasks, 0);
    assert ts[1] == DriverRemap(Some(t), stamp, numTasks, 1);
    assert ts == Identity(numTasks) <==> ts[0] == 0 && ts[1] == 1;
  }

  /** The address words leave the claim loop alone, or swap its first two ids. */
  predicate AddressHarmless(address: nat, stamp: nat, numTasks: nat, capacity: nat) {
    var low := if capacity >= 1 then address % U32 else 0;
    var high := if capacity >= 2 then address / U32 else 1;
    || numTasks <= 1
    || (stamp != 0 && stamp != numTasks)
    || ((low == 0 || low >= numTasks) && (high == 1 || high >= numTasks))
    || (low == 1 && high == 0)
  }

  /** And the claim loop serves every id once exactly then: any other address serves some id twice. */
  lemma AddressWordsBijectiveIff(address: nat, stamp: nat, numTasks: nat, capacity: nat)
    ensures IsPerm(DriverTasks(Some(ArenaWordsOnDeviceChannel(address, capacity)), stamp, numTasks, numTasks), numTasks)
            <==> AddressHarmless(address, stamp, numTasks, capacity)
  {
    var low := if capacity >= 1 then address % U32 else 0;
    var high := if capacity >= 2 then address / U32 else 1;
    var t := ArenaWordsOnDeviceChannel(address, capacity);
    var ts := DriverTasks(Some(t), stamp, numTasks, numTasks);
    if numTasks >= 2 && (stamp == 0 || stamp == numTasks) {
      assert ts[0] == if low < numTasks then low else 0;
      assert ts[1] == if high < numTasks then high else 1;
      assert forall i :: 2 <= i < numTasks ==> ts[i] == i;
      if !AddressHarmless(address, stamp, numTasks, capacity) {
        assert ts[0] == ts[1] || (ts[0] >= 2 && ts[ts[0]] == ts[0]) || (ts[1] >= 2 && ts[ts[1]] == ts[1]);
      }
    }
  }
}
