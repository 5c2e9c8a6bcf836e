/**
 What the blocks of a launch write: output memory and timer rows, store by store.
 */
module DriverData {
  import opened Prelude
  import opened Driver

  function Lookup(m: map<nat, int>, a: nat): Option<int> {
    if a in m then Some(m[a]) else None
  }

  /** The stores of one task, in program order. */
  function Apply(mem: map<nat, int>, cells: seq<Cell>): map<nat, int> {
    if cells == [] then mem
    else
      var n := |cells| - 1;
      Apply(mem, cells[..n])[cells[n].address := cells[n].value]
  }

  /** The reference launch: tasks 0, 1, ... one after the other, with no pi and no claims. */
  function Sequential(mem: map<nat, int>, bodies: seq<seq<Cell>>): map<nat, int> {
    if bodies == [] then mem
    else Apply(Sequential(mem, bodies[..|bodies| - 1]), bodies[|bodies| - 1])
  }

  ghost predicate Touches(cells: seq<Cell>, a: nat) {
    exists k :: 0 <= k < |cells| && cells[k].address == a
  }

  /** Tasks write disjoint cells; values do not depend on memory, so inputs are read-only. */
  ghost predicate Disjoint(bodies: seq<seq<Cell>>) {
    forall t, u, a: nat :: 0 <= t < u < |bodies| && Touches(bodies[t], a) ==> !Touches(bodies[u], a)
  }

  lemma TouchesLast(cells: seq<Cell>, a: nat)
    requires cells != []
    ensures var n := |cells| - 1;
            Touches(cells, a) <==> Touches(cells[..n], a) || cells[n].address == a
  {
    var n := |cells| - 1;
    if k :| 0 <= k < |cells| && cells[k].address == a {
      if k < n { assert cells[..n][k].address == a; }
    }
  }

  lemma {:induction false} ApplyLookup(m1: map<nat, int>, m2: map<nat, int>, cells: seq<Cell>, a: nat)
    ensures !Touches(cells, a) ==> Lookup(Apply(m1, cells), a) == Lookup(m1, a)
    ensures Touches(cells, a) ==> Lookup(Apply(m1, cells), a) == Lookup(Apply(m2, cells), a)
  {
    if cells != [] {
      var n := |cells| - 1;
      ApplyLookup(m1, m2, cells[..n], a);
      TouchesLast(cells, a);
    }
  }

  /** The reference memory, cell by cell. */
  lemma {:induction false} SequentialLookup(mem: map<nat, int>, bodies: seq<seq<Cell>>, a: nat)
    requires Disjoint(bodies)
    ensures forall t :: 0 <= t < |bodies| && Touches(bodies[t], a) ==>
              Lookup(Sequential(mem, bodies), a) == Lookup(Apply(mem, bodies[t]), a)
    ensures (forall t :: 0 <= t < |bodies| ==> !Touches(bodies[t], a)) ==>
              Lookup(Sequential(mem, bodies), a) == Lookup(mem, a)
  {
    if bodies != [] {
      var n := |bodies| - 1;
      var front := bodies[..n];
      assert Disjoint(front) by {
        forall t, u, a: nat | 0 <= t < u < n && Touches(front[t], a) ensures !Touches(front[u], a) {
          assert Touches(bodies[t], a);
        }
      }
      SequentialLookup(mem, front, a);
      ApplyLookup(Sequential(mem, front), mem, bodies[n], a);
      forall t | 0 <= t < |bodies| && Touches(bodies[t], a)
        ensures Lookup(Sequential(mem, bodies), a) == Lookup(Apply(mem, bodies[t]), a)
      {
        if t < n { assert Touches(front[t], a); }
      }
      if forall t :: 0 <= t < |bodies| ==> !Touches(bodies[t], a) {
        forall t | 0 <= t < |front| ensures !Touches(front[t], a) { assert !Touches(bodies[t], a); }
      }
    }
  }

  // ------------------------------------------------------------------
  // Memory along a run.
  // ------------------------------------------------------------------

  ghost predicate ProgBounded(l: Launch, prog: seq<nat>) {
    && |prog| == l.n == |l.bodies|
    && forall t :: 0 <= t < l.n ==> prog[t] <= |l.bodies[t]|
  }

  /** Each task's cells hold what its own stores so far have put there; no other cell changed. */
  ghost predicate Memory(l: Launch, mem0: map<nat, int>, prog: seq<nat>, mem: map<nat, int>)
    requires ProgBounded(l, prog)
  {
    && (forall t, a: nat :: 0 <= t < l.n && Touches(l.bodies[t], a) ==>
          Lookup(mem, a) == Lookup(Apply(mem0, l.bodies[t][..prog[t]]), a))
    && (forall a: nat :: (forall t :: 0 <= t < l.n ==> !Touches(l.bodies[t], a)) ==>
          Lookup(mem, a) == Lookup(mem0, a))
  }

  lemma MemoryWrite(l: Launch, mem0: map<nat, int>, prog: seq<nat>, mem: map<nat, int>, t: nat)
    requires ProgBounded(l, prog) && Disjoint(l.bodies) && Memory(l, mem0, prog, mem)
    requires t < l.n && prog[t] < |l.bodies[t]|
    ensures var c := l.bodies[t][prog[t]];
            var prog' := prog[t := prog[t] + 1];
            ProgBounded(l, prog') && Memory(l, mem0, prog', mem[c.address := c.value])
  {
    var k := prog[t];
    var c := l.bodies[t][k];
    var prog' := prog[t := k + 1];
    var mem' := mem[c.address := c.value];
    assert Touches(l.bodies[t], c.address);
    var pre := l.bodies[t][..k + 1];
    assert pre[..k] == l.bodies[t][..k];
    assert Apply(mem0, pre) == Apply(mem0, pre[..k])[c.address := c.value];
    forall u, a: nat | 0 <= u < l.n && Touches(l.bodies[u], a)
      ensures Lookup(mem', a) == Lookup(Apply(mem0, l.bodies[u][..prog'[u]]), a)
    {
      assert Lookup(mem, a) == Lookup(Apply(mem0, l.bodies[u][..prog[u]]), a);
      if u == t {
        assert l.bodies[u][..prog'[u]] == pre;
      } else if u < t {
        assert !Touches(l.bodies[t], a);
      } else {
        assert !Touches(l.bodies[u], c.address);
      }
    }
  }

  /** When every task has run to its end, memory is the reference memory. */
  lemma MemoryComplete(l: Launch, mem0: map<nat, int>, prog: seq<nat>, mem: map<nat, int>)
    requires ProgBounded(l, prog) && Disjoint(l.bodies) && Memory(l, mem0, prog, mem)
    requires forall t :: 0 <= t < l.n ==> prog[t] == |l.bodies[t]|
    ensures mem == Sequential(mem0, l.bodies)
  {
    var ref := Sequential(mem0, l.bodies);
    forall a: nat ensures Lookup(mem, a) == Lookup(ref, a) {
      SequentialLookup(mem0, l.bodies, a);
      if t :| 0 <= t < l.n && Touches(l.bodies[t], a) {
        assert l.bodies[t][..prog[t]] == l.bodies[t];
      }
    }
    assert forall a: nat :: a in mem <==> Lookup(mem, a).Some?;
    assert forall a: nat :: a in ref <==> Lookup(ref, a).Some?;
    forall a: nat | a in mem ensures a in ref && mem[a] == ref[a] {
      assert Lookup(mem, a) == Lookup(ref, a);
    }
    forall a: nat | a in ref ensures a in mem {
      assert Lookup(mem, a) == Lookup(ref, a);
    }
  }

  // ------------------------------------------------------------------
  // Timer rows along a run.
  // ------------------------------------------------------------------

  function RowShares(l: Launch, cycles: map<nat, nat>, r: nat): (xs: seq<nat>)
    requires |l.row| == l.n
    ensures |xs| == l.n
    ensures forall t :: 0 <= t < l.n ==> xs[t] == if t in cycles && l.row[t] == r then cycles[t] else 0
  {
    seq(l.n, t requires 0 <= t < l.n => if t in cycles && l.row[t] == r then cycles[t] else 0)
  }

  /** Total duration of the tasks whose timer row is r. */
  function RowTotal(l: Launch, cycles: map<nat, nat>, r: nat): nat
    requires |l.row| == l.n
  {
    Sum(RowShares(l, cycles, r))
  }

  ghost predicate Timers(l: Launch, rows0: seq<nat>, s: State)
    requires |l.row| == l.n
  {
    && |s.rows| == |rows0|
    && forall r :: 0 <= r < |rows0| ==>
         s.rows[r] == if l.timerOn then (rows0[r] + RowTotal(l, s.cycles, r)) % U64 else rows0[r]
  }

  lemma RowTotalAdd(l: Launch, cycles: map<nat, nat>, t: nat, span: nat, r: nat)
    requires |l.row| == l.n && t < l.n && t !in cycles
    ensures RowTotal(l, cycles[t := span], r) == RowTotal(l, cycles, r) + if l.row[t] == r then span else 0
  {
    var v := if l.row[t] == r then span else 0;
    SumUpdate(RowShares(l, cycles, r), t, v);
    assert RowShares(l, cycles[t := span], r) == RowShares(l, cycles, r)[t := v];
  }

  lemma ModAdd(a: nat, b: nat)
    ensures (a % U64 + b) % U64 == (a + b) % U64
  {
  }

  lemma TimersFinish(l: Launch, rows0: seq<nat>, s: State, t: nat, span: nat)
    requires |l.row| == l.n && t < l.n && Timers(l, rows0, s) && t !in s.cycles
    ensures Timers(l, rows0, s.(rows := AddCycles(l, s.rows, t, span), cycles := s.cycles[t := span]))
  {
    var rows' := AddCycles(l, s.rows, t, span);
    forall r | 0 <= r < |rows0|
      ensures rows'[r] == if l.timerOn then (rows0[r] + RowTotal(l, s.cycles[t := span], r)) % U64 else rows0[r]
    {
      RowTotalAdd(l, s.cycles, t, span, r);
      if l.timerOn && r == l.row[t] {
        ModAdd(rows0[r] + RowTotal(l, s.cycles, r), span);
      }
    }
  }
}
