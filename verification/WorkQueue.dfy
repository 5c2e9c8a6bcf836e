/**
 The driver the work-queue pass puts around a kernel: which path a launch takes, what
 each raw id then serves, and why every path computes what the stock launch computes.
 */
module WorkQueue {
  import opened Prelude
  import opened Driver
  import opened DriverData
  import opened DriverRuns
  import Remap

  /** One frozen snapshot of the control plane: pointers that are armed, table, header words. */
  datatype Plane = Plane(ctrlArmed: bool, queueArmed: bool, order: Option<seq<nat>>,
                         stamp: nat, numTasks: nat)
  {
    predicate Valid() {
      numTasks < U32 && (order.Some? ==> ctrlArmed)
    }
  }

  /** The grid; x is the slot axis, which is the one a claim enumerates. */
  datatype Grid = Grid(x: nat, y: nat, z: nat)

  /** entry and dyn blocks of the driver: claims need armed slots, a 1D grid and num_tasks > 0. */
  function Path(useClc: bool, p: Plane, g: Grid): Mode {
    var armed := if useClc then p.ctrlArmed else p.queueArmed && p.ctrlArmed;
    if !(armed && g.y == 1 && g.z == 1) then Static
    else if p.numTasks == 0 then Static
    else if useClc then Clc else Ticket
  }

  /** A static block keeps its other coordinates and remaps its slot coordinate. */
  function StaticTask(p: Plane, g: Grid, raw: nat): nat
    requires g.x > 0
  {
    Remap.DriverRemap(p.order, p.stamp, p.numTasks, raw % g.x) + g.x * (raw / g.x)
  }

  function Tasks(p: Plane, g: Grid, mode: Mode): seq<nat>
    requires g.x > 0
  {
    if mode == Static then
      seq(g.x * (g.y * g.z), raw requires 0 <= raw => StaticTask(p, g, raw))
    else
      Remap.DriverTasks(p.order, p.stamp, p.numTasks, p.numTasks)
  }

  /** The timer row of a task: its slot coordinate on the static path, else the claimed task itself. */
  function RowOf(g: Grid, mode: Mode, t: nat): nat
    requires g.x > 0
  {
    if mode == Static then t % g.x else t
  }

  /** The launch as the step machine sees it. */
  function LaunchOf(useClc: bool, p: Plane, g: Grid, bodies: seq<seq<Cell>>, timerOn: bool): Launch
    requires g.x > 0
  {
    var mode := Path(useClc, p, g);
    var ts := Tasks(p, g, mode);
    Launch(mode, if mode == Static then |ts| else g.x, |ts|, ts, bodies,
           seq(|ts|, t requires 0 <= t => RowOf(g, mode, t)), timerOn)
  }

  /** The launch before weaving: one block a task, no pi, no claims, no timer. */
  function StockLaunch(bodies: seq<seq<Cell>>): Launch {
    Launch(Static, |bodies|, |bodies|, Identity(|bodies|), bodies, seq(|bodies|, t => 0), false)
  }

  /** In the stock launch block b runs task b, once, and nothing is timed. */
  lemma StockRuns(bodies: seq<seq<Cell>>, b: nat)
    requires b < |bodies| < U32
    ensures var l := StockLaunch(bodies);
            l.Valid() && l.mode == Static && !l.timerOn && l.blocks == l.n == |bodies| && l.task[b] == b
            && l.bodies[l.task[b]] == bodies[b]
  {
  }

  // ------------------------------------------------------------------
  // The static path over a grid of several planes.
  // ------------------------------------------------------------------

  lemma SlotSplit(g: nat, s: nat, o: nat)
    requires s < g
    ensures (s + g * o) % g == s && (s + g * o) / g == o
  {
    var t := s + g * o;
    var q := t / g;
    assert g * q <= t < g * q + g;
    assert g * (q + 1) == g * q + g && g * (o + 1) == g * o + g;
    MulLess(g, q, o + 1);
    MulLess(g, o, q + 1);
  }

  lemma PlaneBound(g: nat, m: nat, r: nat)
    requires g > 0 && r < g * m
    ensures r / g < m
  {
    MulLess(g, r / g, m);
  }

  lemma SlotFits(g: nat, m: nat, s: nat, o: nat)
    requires s < g && o < m
    ensures s + g * o < g * m
  {
    assert g * o + g == g * (o + 1);
    assert g * (o + 1) <= g * m;
  }

  /** Whole blocks are permuted exactly when the slot axis is. */
  lemma StaticPerm(p: Plane, g: Grid)
    requires g.x > 0 && g.y * g.z > 0
    ensures IsPerm(Tasks(p, g, Static), g.x * (g.y * g.z))
            <==> IsPerm(Remap.DriverTasks(p.order, p.stamp, p.numTasks, g.x), g.x)
  {
    if IsPerm(Remap.DriverTasks(p.order, p.stamp, p.numTasks, g.x), g.x) { StaticForth(p, g); }
    if IsPerm(Tasks(p, g, Static), g.x * (g.y * g.z)) { StaticBack(p, g); }
  }

  lemma StaticForth(p: Plane, g: Grid)
    requires g.x > 0
    requires IsPerm(Remap.DriverTasks(p.order, p.stamp, p.numTasks, g.x), g.x)
    ensures IsPerm(Tasks(p, g, Static), g.x * (g.y * g.z))
  {
    var ts := Tasks(p, g, Static);
    var slots := Remap.DriverTasks(p.order, p.stamp, p.numTasks, g.x);
    var m := g.y * g.z;
    forall r | 0 <= r < |ts|
      ensures ts[r] % g.x == slots[r % g.x] && ts[r] / g.x == r / g.x && ts[r] < g.x * m
    {
      SlotSplit(g.x, slots[r % g.x], r / g.x);
      PlaneBound(g.x, m, r);
      SlotFits(g.x, m, slots[r % g.x], r / g.x);
    }
    forall i, j | 0 <= i < j < |ts| ensures ts[i] != ts[j] {
      SameSlot(g.x, i, j);
    }
  }

  lemma LastPlane(g: nat, m: nat, t: nat)
    requires m > 0
    ensures t + g * (m - 1) < g * m <==> t < g
  {
    assert g * m == g * (m - 1) + g;
  }

  /** Slot s of plane o. */
  lemma TaskAt(p: Plane, g: Grid, s: nat, o: nat)
    requires g.x > 0 && s < g.x && o < g.y * g.z
    ensures s + g.x * o < |Tasks(p, g, Static)|
    ensures Tasks(p, g, Static)[s + g.x * o] == Remap.DriverRemap(p.order, p.stamp, p.numTasks, s) + g.x * o
  {
    SlotSplit(g.x, s, o);
    SlotFits(g.x, g.y * g.z, s, o);
  }

  /** The last plane bounds the slots, the first one tells them apart. */
  lemma StaticBack(p: Plane, g: Grid)
    requires g.x > 0 && g.y * g.z > 0
    requires IsPerm(Tasks(p, g, Static), g.x * (g.y * g.z))
    ensures IsPerm(Remap.DriverTasks(p.order, p.stamp, p.numTasks, g.x), g.x)
  {
    hide Tasks, Remap.DriverRemap, Remap.DriverTasks;
    var ts := Tasks(p, g, Static);
    var slots := Remap.DriverTasks(p.order, p.stamp, p.numTasks, g.x);
    var m := g.y * g.z;
    forall s | 0 <= s < g.x ensures s < |ts| && slots[s] < g.x && ts[s] == slots[s] {
      TaskAt(p, g, s, 0);
      TaskAt(p, g, s, m - 1);
      LastPlane(g.x, m, slots[s]);
    }
    forall i, j | 0 <= i < j < g.x ensures slots[i] != slots[j] {
      assert ts[i] != ts[j];
    }
  }

  lemma SameSlot(g: nat, i: nat, j: nat)
    requires g > 0
    ensures i % g == j % g && i / g == j / g ==> i == j
  {
    assert i == g * (i / g) + i % g;
    assert j == g * (j / g) + j % g;
  }

  /** Which launches claim, in terms of what the driver reads at its entry. */
  predicate Claims(useClc: bool, p: Plane, g: Grid) {
    && (if useClc then p.ctrlArmed else p.queueArmed && p.ctrlArmed)
    && g.y == 1 && g.z == 1 && p.numTasks > 0
  }

  /** The sizes a launch may have; no grid is empty. */
  predicate Sized(useClc: bool, p: Plane, g: Grid) {
    if !Claims(useClc, p, g) then 0 < g.x * (g.y * g.z) < U32
    else if useClc then p.numTasks <= g.x < U32
    else g.x + p.numTasks <= U32
  }

  /** How many tasks a launch has: num_tasks if it claims, else one a block. */
  function TaskCount(useClc: bool, p: Plane, g: Grid): nat {
    if Claims(useClc, p, g) then p.numTasks else g.x * (g.y * g.z)
  }

  /** How many raw ids the order is read for: num_tasks if the launch claims, else the slot axis. */
  function Range(useClc: bool, p: Plane, g: Grid): nat {
    if Claims(useClc, p, g) then p.numTasks else g.x
  }

  /** The order of the plane is sound for this launch, on the path the driver picks. */
  predicate Serviceable(useClc: bool, p: Plane, g: Grid) {
    Remap.DriverSound(p.order, p.stamp, p.numTasks, Range(useClc, p, g))
  }

  /** The launch is a permutation of its tasks exactly when the order is sound for it. */
  lemma LaunchValid(useClc: bool, p: Plane, g: Grid, bodies: seq<seq<Cell>>, timerOn: bool)
    requires p.Valid() && g.x > 0 && Sized(useClc, p, g)
    requires |bodies| == TaskCount(useClc, p, g)
    ensures var l := LaunchOf(useClc, p, g, bodies, timerOn);
            && (l.Valid() <==> Serviceable(useClc, p, g))
            && (l.Valid() ==> NoWrap(l) && l.Reach() == l.n == |bodies|)
  {
    hide IsPerm, Remap.DriverSound, Remap.DriverTasks;
    Remap.DriverRemapBijective(p.order, p.stamp, p.numTasks, Range(useClc, p, g));
    if !Claims(useClc, p, g) {
      PositiveFactor(g.x, g.y * g.z);
      StaticPerm(p, g);
    }
  }

  lemma PositiveFactor(a: nat, b: nat)
    ensures a * b > 0 ==> b > 0
  {
  }

  /**
   An order installed for num_tasks tiles, stamped for them or left unchecked, is sound for the claim
   loop in either mode, which serves it as installed: raw id i runs task order[i].
   */
  lemma InstalledOrderServed(useClc: bool, p: Plane, g: Grid, bodies: seq<seq<Cell>>, timerOn: bool)
    requires Claims(useClc, p, g) && g.x > 0 && p.order.Some? && Remap.Permutes(p.order.value, p.numTasks)
    requires p.stamp == 0 || p.stamp == p.numTasks
    ensures Serviceable(useClc, p, g)
    ensures LaunchOf(useClc, p, g, bodies, timerOn).task == p.order.value[..p.numTasks]
  {
    var t := p.order.value;
    Remap.PrefixShuffles(t, p.numTasks);
    assert forall i :: 0 <= i < p.numTasks ==> t[i] == t[..p.numTasks][i];
    Remap.DriverAppliesOrder(t, p.stamp, p.numTasks);
  }

  /**
   The woven driver is equivalent to the stock launch: on the static, ticket or CLC path, under any
   order that is sound for the launch, stamped or not, and any interleaving, a complete run serves
   every task once, adds to each timer row exactly the durations of that row's tasks, and, if the
   tasks write disjoint cells, leaves the same memory as any complete run of the stock launch.
   */
  lemma WovenEqualsStock(useClc: bool, p: Plane, g: Grid, bodies: seq<seq<Cell>>, timerOn: bool,
                         mem: map<nat, int>, rows: seq<nat>, woven: seq<Event>, stock: seq<Event>,
                         l: Launch, k: Launch)
    requires p.Valid() && g.x > 0 && Sized(useClc, p, g) && Serviceable(useClc, p, g)
    requires |bodies| == TaskCount(useClc, p, g) && RowsFit(rows)
    requires l == LaunchOf(useClc, p, g, bodies, timerOn) && l.Valid() && Completes(l, mem, rows, woven)
    requires k == StockLaunch(bodies) && k.Valid() && Completes(k, mem, rows, stock)
    ensures Disjoint(bodies) ==>
              Outcome(l, mem, rows, woven).mem == Outcome(k, mem, rows, stock).mem == Sequential(mem, bodies)
    ensures IsPerm(Outcome(l, mem, rows, woven).served, |bodies|)
    ensures RowsAre(l, rows, Outcome(l, mem, rows, woven))
  {
    LaunchValid(useClc, p, g, bodies, timerOn);
    CompleteRun(l, mem, rows, woven);
    CompleteRun(k, mem, rows, stock);
  }

  /** Two runs in which every task took as long leave the same rows: add order is invisible. */
  lemma RowsIgnoreInterleaving(l: Launch, mem: map<nat, int>, rows: seq<nat>, es: seq<Event>, fs: seq<Event>)
    requires l.Valid() && NoWrap(l) && l.Reach() == l.n && RowsFit(rows)
    requires Completes(l, mem, rows, es) && Completes(l, mem, rows, fs)
    requires Outcome(l, mem, rows, es).cycles == Outcome(l, mem, rows, fs).cycles
    ensures Outcome(l, mem, rows, es).rows == Outcome(l, mem, rows, fs).rows
  {
    CompleteRun(l, mem, rows, es);
    CompleteRun(l, mem, rows, fs);
    var a, b := Outcome(l, mem, rows, es), Outcome(l, mem, rows, fs);
    forall r | 0 <= r < |rows| ensures a.rows[r] == b.rows[r] {
    }
  }

  /**
   Every complete run of the driver: tickets hand out num_tasks ids whatever the number of workers, a
   cancel pool the smaller of num_tasks and the grid, and any other launch has one id a block.
   */
  lemma DriverServes(useClc: bool, p: Plane, g: Grid, bodies: seq<seq<Cell>>, timerOn: bool, mem: map<nat, int>,
                     rows: seq<nat>, es: seq<Event>, l: Launch)
    requires g.x > 0 && l == LaunchOf(useClc, p, g, bodies, timerOn)
    requires l.Valid() && Completes(l, mem, rows, es)
    ensures Claims(useClc, p, g) && !useClc && g.x + p.numTasks <= U32 ==>
              IsPerm(Outcome(l, mem, rows, es).served, p.numTasks)
    ensures Claims(useClc, p, g) && useClc ==>
              IsPerm(Outcome(l, mem, rows, es).served, if g.x < p.numTasks then g.x else p.numTasks)
    ensures !Claims(useClc, p, g) ==> IsPerm(Outcome(l, mem, rows, es).served, g.x * (g.y * g.z))
  {
    if NoWrap(l) {
      hide Driver.Outcome, Driver.Completes;
      ServesAll(l, mem, rows, es);
    }
  }

  /**
   Which task and which timer row a raw id stands for. A static block keeps its other coordinates, has
   its slot coordinate remapped, and is timed by it; a claimed id is remapped and timed as a whole.
   */
  lemma TaskAndRow(useClc: bool, p: Plane, g: Grid, bodies: seq<seq<Cell>>, timerOn: bool, l: Launch, s: nat, o: nat)
    requires g.x > 0 && l == LaunchOf(useClc, p, g, bodies, timerOn)
    ensures l.bodies == bodies && l.timerOn == timerOn && |l.row| == |l.task| == l.n
    ensures !Claims(useClc, p, g) && s < g.x && o < g.y * g.z ==>
              && l.n == l.blocks == g.x * (g.y * g.z) && s + g.x * o < l.n
              && l.task[s + g.x * o] == Remap.DriverRemap(p.order, p.stamp, p.numTasks, s) + g.x * o
              && l.row[s + g.x * o] == s
    ensures Claims(useClc, p, g) && s < p.numTasks ==>
              && l.n == p.numTasks && l.blocks == g.x
              && l.task[s] == Remap.DriverRemap(p.order, p.stamp, p.numTasks, s) && l.row[s] == s
  {
    hide Remap.DriverRemap;
    if !Claims(useClc, p, g) && s < g.x && o < g.y * g.z {
      TaskAt(p, g, s, o);
      SlotSplit(g.x, s, o);
      hide Tasks;
    }
  }

  /** A claim launch serves exactly the smaller prefix of raw ids, which need not be its own tiles. */
  lemma ClcServesSmallerPrefix(p: Plane, g: Grid, bodies: seq<seq<Cell>>, mem: map<nat, int>,
                               rows: seq<nat>, es: seq<Event>, l: Launch)
    requires p.Valid() && 0 < g.x < U32 && Claims(true, p, g) && |bodies| == p.numTasks
    requires l == LaunchOf(true, p, g, bodies, l.timerOn) && l.Valid() && Completes(l, mem, rows, es)
    ensures IsPerm(Outcome(l, mem, rows, es).served, Min(g.x, p.numTasks))
  {
    ServesAll(l, mem, rows, es);
  }

  /** The tasks a launch has run, in the order they ended. */
  function TasksRun(l: Launch, s: State): (ts: seq<nat>)
    requires forall k :: 0 <= k < |s.served| ==> s.served[k] < |l.task|
    ensures |ts| == |s.served|
    ensures forall k :: 0 <= k < |s.served| ==> ts[k] == l.task[s.served[k]]
  {
    seq(|s.served|, k requires 0 <= k < |s.served| => l.task[s.served[k]])
  }

  /** Reading a list through a permutation of its first m positions. */
  lemma ThroughPerm(tasks: seq<nat>, q: seq<nat>, ts: seq<nat>, m: nat, g: nat)
    requires m <= |tasks| && IsPerm(q, m) && |ts| == m
    requires forall k :: 0 <= k < m ==> ts[k] == tasks[q[k]]
    ensures IsPerm(ts, g) <==> m == g && IsPerm(tasks[..m], g)
  {
    if m == g && IsPerm(tasks[..m], g) {
      forall i, j | 0 <= i < j < m ensures ts[i] != ts[j] {
        assert tasks[..m][q[i]] != tasks[..m][q[j]];
      }
      forall i | 0 <= i < m ensures ts[i] < g {
        assert tasks[..m][q[i]] < g;
      }
    }
    if IsPerm(ts, g) {
      forall i, j | 0 <= i < j < m ensures tasks[i] != tasks[j] {
        var a := PlaceOf(q, m, i);
        var b := PlaceOf(q, m, j);
        assert ts[a] != ts[b];
      }
      forall i | 0 <= i < m ensures tasks[i] < g {
        var a := PlaceOf(q, m, i);
        assert ts[a] < g;
      }
    }
  }

  lemma PlaceOf(q: seq<nat>, m: nat, i: nat) returns (k: nat)
    requires IsPerm(q, m) && i < m
    ensures k < m && q[k] == i
  {
    PermHitsAll(q, m, i);
    k :| 0 <= k < m && q[k] == i;
  }

  /**
   A claim launch whose grid and num_tasks may differ runs each of its own tiles once, and nothing
   else, exactly when the grid is not larger and the tasks of its raw ids permute its tiles.
   */
  lemma ClcRunsOwnTilesIff(p: Plane, g: Grid, bodies: seq<seq<Cell>>, mem: map<nat, int>,
                           rows: seq<nat>, es: seq<Event>, l: Launch)
    requires p.Valid() && 0 < g.x < U32 && Claims(true, p, g) && |bodies| == p.numTasks
    requires l == LaunchOf(true, p, g, bodies, l.timerOn) && l.Valid() && Completes(l, mem, rows, es)
    ensures var s := Outcome(l, mem, rows, es);
            && (forall k :: 0 <= k < |s.served| ==> s.served[k] < |l.task|)
            && (IsPerm(TasksRun(l, s), g.x) <==> g.x <= p.numTasks && IsPerm(Tasks(p, g, Clc)[..g.x], g.x))
  {
    ClcServesSmallerPrefix(p, g, bodies, mem, rows, es, l);
    var s := Outcome(l, mem, rows, es);
    ThroughPerm(l.task, s.served, TasksRun(l, s), Min(g.x, p.numTasks), g.x);
  }
}

/**
 The same launch as an object the hardware updates in place: each method is one atomic
 step, and RunToCompletion lets any ready block go next until none is left.
 */
module Hardware {
  import opened Prelude
  import opened Driver
  import opened DriverData
  import opened DriverRuns
  import opened DriverTermination

  class Gpu {
    const l: Launch
    var pcs: seq<Pc>
    var counter: nat
    var mem: map<nat, int>
    var rows: seq<nat>
    ghost var claims: seq<Claim>
    ghost var served: seq<nat>
    ghost var prog: seq<nat>
    ghost var cycles: map<nat, nat>

    ghost function View(): State
      reads this
    {
      State(pcs, counter, claims, served, prog, mem, rows, cycles)
    }

    constructor (l: Launch, mem: map<nat, int>, rows: seq<nat>)
      ensures this.l == l && View() == Init(l, mem, rows)
    {
      this.l := l;
      pcs := seq(l.blocks, _ => Unlaunched);
      counter := l.blocks;
      this.mem, this.rows := mem, rows;
      claims, served, prog, cycles := [], [], seq(l.n, _ => 0), map[];
    }

    /** The hardware launches a block: it starts on its own id, or exits if surplus. */
    method LaunchBlock(b: nat)
      requires l.Valid() && Shaped(l, View()) && Enabled(l, View(), Start(b))
      modifies this
      ensures View() == Step(l, old(View()), Start(b))
    {
      if b >= l.n {
        pcs := pcs[b := Exited];
      } else {
        pcs := pcs[b := Body(b, 0)];
      }
    }

    /** One store of the running task body. */
    method WriteCell(b: nat)
      requires l.Valid() && Shaped(l, View()) && Enabled(l, View(), Write(b))
      modifies this
      ensures View() == Step(l, old(View()), Write(b))
    {
      var raw, k := pcs[b].raw, pcs[b].stores;
      var c := l.bodies[l.task[raw]][k];
      mem := mem[c.address := c.value];
      pcs := pcs[b := Body(raw, k + 1)];
      prog := prog[l.task[raw] := k + 1];
    }

    /** The body returns: the timer row takes the duration, and the claim comes after the body. */
    method FinishBody(b: nat, span: nat)
      requires l.Valid() && Shaped(l, View()) && Enabled(l, View(), Finish(b, span))
      modifies this
      ensures View() == Step(l, old(View()), Finish(b, span))
    {
      var t := l.task[pcs[b].raw];
      var r := l.row[t];
      if l.timerOn && r < |rows| {
        rows := rows[r := (rows[r] + span) % U64];
      }
      served := served + [pcs[b].raw];
      cycles := cycles[t := span];
      if l.mode == Static {
        pcs := pcs[b := Exited];
      } else {
        pcs := pcs[b := Claiming];
      }
    }

    /** The atomic add on the 32-bit queue word, then the done test. */
    method TakeTicket(b: nat)
      requires l.Valid() && Shaped(l, View()) && Enabled(l, View(), Take(b, None)) && l.mode == Ticket
      modifies this
      ensures View() == Step(l, old(View()), Take(b, None))
    {
      var ticket := counter;
      counter := (counter + 1) % U32;
      claims := claims + [Claim(b, Some(ticket))];
      if ticket >= l.n {
        pcs := pcs[b := Exited];
      } else {
        pcs := pcs[b := Body(ticket, 0)];
      }
    }

    /** try_cancel: either an unlaunched block is taken over or the sentinel ends the loop. */
    method TryCancel(b: nat, victim: Option<nat>)
      requires l.Valid() && Shaped(l, View()) && Enabled(l, View(), Take(b, victim)) && l.mode == Clc
      modifies this
      ensures View() == Step(l, old(View()), Take(b, victim))
    {
      claims := claims + [Claim(b, victim)];
      var next := l.n;
      if victim.Some? {
        pcs := pcs[victim.value := Cancelled];
        next := victim.value;
      }
      if next >= l.n {
        pcs := pcs[b := Exited];
      } else {
        pcs := pcs[b := Body(next, 0)];
      }
    }

    /** Whatever block b has to do next. */
    method Advance(b: nat, span: nat) returns (ghost e: Event)
      requires l.Valid() && Shaped(l, View()) && Placed(l, View())
      requires b < |pcs| && !pcs[b].Exited? && !pcs[b].Cancelled?
      modifies this
      ensures Enabled(l, old(View()), e) && View() == Step(l, old(View()), e)
    {
      if pcs[b].Unlaunched? {
        e := Start(b);
        LaunchBlock(b);
      } else if pcs[b].Body? && pcs[b].stores < |l.bodies[l.task[pcs[b].raw]]| {
        e := Write(b);
        WriteCell(b);
      } else if pcs[b].Body? {
        e := Finish(b, span);
        FinishBody(b, span);
      } else if l.mode == Ticket {
        e := Take(b, None);
        TakeTicket(b);
      } else {
        var victim: Option<nat> := None;
        if exists v: nat :: v < |pcs| && pcs[v].Unlaunched? {
          var v: nat :| v < |pcs| && pcs[v].Unlaunched?;
          if * { victim := Some(v); }
        }
        e := Take(b, victim);
        TryCancel(b, victim);
      }
    }

    /**
     Any ready block may go next, and a claim may steal any unlaunched block or fail. The loop
     always ends, and ends with every id served once, the timer rows exact, and memory equal to
     the reference if the tasks write disjoint cells.
     */
    method RunToCompletion(span: nat -> nat)
      requires l.Valid() && NoWrap(l) && l.Reach() == l.n && RowsFit(rows)
      requires View() == Init(l, mem, rows)
      modifies this
      ensures Quiescent(View()) && IsPerm(served, l.n)
      ensures RowsAre(l, old(rows), View())
      ensures Disjoint(l.bodies) ==> mem == Sequential(old(mem), l.bodies)
    {
      hide Measure, Step, Enabled, Timed, Stored, RowsAre, Sequential, Init, Disjoint, RowsFit, NoWrap, IsPerm;
      hide ExactlyOnce, ClaimsOnce, Balanced, Placed, Progress, FailsBalanced, CounterOk;
      ghost var mem0, rows0 := mem, rows;
      InitProtocol(l, mem, rows);
      InitData(l, mem, rows);
      while exists b :: 0 <= b < |pcs| && !pcs[b].Exited? && !pcs[b].Cancelled?
        invariant Shaped(l, View()) && Protocol(l, View()) && Timed(l, rows0, View())
        invariant Disjoint(l.bodies) ==> Stored(l, mem0, View())
        decreases Measure(l, View())
      {
        var b :| 0 <= b < |pcs| && !pcs[b].Exited? && !pcs[b].Cancelled?;
        ghost var s := View();
        ghost var e := Advance(b, span(b));
        MeasureDecreases(l, s, e);
        InvariantStep(l, mem0, rows0, s, e);
      }
      Settled(l, mem0, rows0, View());
    }
  }
}
