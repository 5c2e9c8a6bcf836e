/**
 What a claim-loop launch makes of the plane the serving loop published.
 */
module ServingLaunch {
  import opened Prelude
  import opened Serving
  import opened ServingOrder
  import opened WorkQueue
  import Driver
  import opened DriverData
  import opened DriverRuns
  import Remap

  const MAX_TASKS_LIMIT: nat := 16384

  /** The plane as the driver reads it: every slot armed, the order in the arena itself. */
  function PlaneOf(d: Device): Plane
    requires d.done <= |d.ops|
  {
    Plane(true, true, Some(Published(d)), d.header.stamp, d.header.numTasks)
  }

  /** A planned step leaves num_tasks at 0 or at its own tile count. */
  lemma PlannedNumTasks(cfg: Config, s: State, b: Batch)
    requires Reaches(cfg, s, b)
    ensures var (h, d) := Begin(cfg, s.host, s.dev, b);
            d.header.numTasks == 0 || d.header.numTasks == b.Tiles()
  {
    BeginPlans(cfg, s, b);
    hide Begin, Consume, Reaches;
  }

  /** On every path the driver picks for it, the published order is sound for a launch of its own count. */
  lemma PublishedServiceable(p: Plane, orderN: Option<nat>, header: Header, useClc: bool, g: Grid)
    requires p.order.Some? && OrderOk(orderN, header, p.order.value)
    requires p.stamp == header.stamp && p.numTasks == header.numTasks
    requires header.numTasks == 0 || header.numTasks == g.x
    ensures Serviceable(useClc, p, g)
  {
    SnapshotServes(orderN, header, p.order.value, g.x);
    if header.numTasks == 0 {
      Remap.DisarmedDriverIsIdentity(p.order, p.stamp, g.x);
      Remap.DriverRemapBijective(p.order, p.stamp, 0, g.x);
    }
  }

  /** So a planned step leaves the plane sound for a launch of its own tiles, over any number of planes. */
  lemma PlannedServiceable(cfg: Config, s: State, b: Batch, useClc: bool, g: Grid, p: Plane)
    requires OrderInv(cfg, s) && b.Ordered() && Reaches(cfg, s, b)
    requires |s.dev.table| <= MAX_TASKS_LIMIT && b.Tiles() == g.x && 0 < g.x * (g.y * g.z) < U32
    requires var (h, d) := Begin(cfg, s.host, s.dev, b); d.done <= |d.ops| && p == PlaneOf(d)
    ensures p.Valid() && g.x > 0 && Sized(useClc, p, g) && Serviceable(useClc, p, g)
    ensures TaskCount(useClc, p, g) == g.x * (g.y * g.z)
  {
    hide Published, OrderOk, Synced;
    BeginOrder(cfg, s, b);
    PlannedNumTasks(cfg, s, b);
    var (h, d) := Begin(cfg, s.host, s.dev, b);
    assert OrderOk(h.orderN, d.header, Published(d)) by { assert OrderInv(cfg, State(h, d, Some(s.host.step))); }
    hide Begin;
    PublishedServiceable(p, h.orderN, d.header, useClc, g);
    assert g.y == 1 && g.z == 1 ==> g.x * (g.y * g.z) == g.x;
  }

  /**
   The launch of a planned step's own tiles, over any number of planes, serves each of them once, and
   computes what the stock launch computes if they write disjoint cells, whether the step armed the
   claim loop or not, in either claim mode, and whatever an earlier empty batch did to the order.
   */
  lemma PlannedLaunchEqualsStock(cfg: Config, s: State, b: Batch, useClc: bool, y: nat, z: nat,
                                 bodies: seq<seq<Driver.Cell>>, timerOn: bool, mem: map<nat, int>, rows: seq<nat>,
                                 woven: seq<Driver.Event>, stock: seq<Driver.Event>,
                                 p: Plane, l: Driver.Launch, k: Driver.Launch)
    requires !cfg.orderDevice && OrderInv(cfg, s) && b.Ordered() && Reaches(cfg, s, b)
    requires |s.dev.table| <= MAX_TASKS_LIMIT && b.Tiles() > 0
    requires 0 < b.Tiles() * (y * z) == |bodies| < U32 && RowsFit(rows)
    requires var (h, d) := Begin(cfg, s.host, s.dev, b); d.done <= |d.ops| && p == PlaneOf(d)
    requires l == LaunchOf(useClc, p, Grid(b.Tiles(), y, z), bodies, timerOn)
    requires l.Valid() && Driver.Completes(l, mem, rows, woven)
    requires k == StockLaunch(bodies) && k.Valid() && Driver.Completes(k, mem, rows, stock)
    ensures Disjoint(bodies) ==> Driver.Outcome(l, mem, rows, woven).mem == Driver.Outcome(k, mem, rows, stock).mem
    ensures IsPerm(Driver.Outcome(l, mem, rows, woven).served, |bodies|)
  {
    hide Driver.Completes, Driver.Outcome, Disjoint, Published, OrderInv, Begin, Reaches, Serviceable, Sized;
    var g := Grid(b.Tiles(), y, z);
    PlannedServiceable(cfg, s, b, useClc, g, p);
    WovenEqualsStock(useClc, p, g, bodies, timerOn, mem, rows, woven, stock, l, k);
  }

  /** And that launch is a permutation of its tasks, so the driver does have complete runs of it. */
  lemma PlannedLaunchValid(cfg: Config, s: State, b: Batch, useClc: bool, y: nat, z: nat,
                           bodies: seq<seq<Driver.Cell>>, timerOn: bool, p: Plane)
    requires !cfg.orderDevice && OrderInv(cfg, s) && b.Ordered() && Reaches(cfg, s, b)
    requires |s.dev.table| <= MAX_TASKS_LIMIT && b.Tiles() > 0
    requires 0 < b.Tiles() * (y * z) == |bodies| < U32
    requires var (h, d) := Begin(cfg, s.host, s.dev, b); d.done <= |d.ops| && p == PlaneOf(d)
    ensures LaunchOf(useClc, p, Grid(b.Tiles(), y, z), bodies, timerOn).Valid()
  {
    hide Published, OrderInv, Begin, Reaches, Serviceable, Sized;
    var g := Grid(b.Tiles(), y, z);
    PlannedServiceable(cfg, s, b, useClc, g, p);
    LaunchValid(useClc, p, g, bodies, timerOn);
  }

  // ------------------------------------------------------------------
  // Launches over a plane that is still armed for another batch.
  // ------------------------------------------------------------------

  /**
   In every run: an off-cadence step leaves the plane armed for the last planned batch, of k tiles. A
   CLC launch of grid tiles then runs each of its own tiles once, and nothing else, exactly when grid
   is k, or is smaller and the stale order happens to keep the first grid raw ids among themselves.
   */
  lemma StaleArmRunsOwnTilesIff(cfg: Config, capacity: nat, r: nat, run: seq<Event>, b: Batch, grid: nat,
                                bodies: seq<seq<Driver.Cell>>, mem: map<nat, int>, rows: seq<nat>,
                                es: seq<Driver.Event>, d: Device, l: Driver.Launch)
    requires !cfg.orderDevice && IsRun(cfg, Init(capacity, r), run)
    requires !Planned(cfg, Exec(cfg, Init(capacity, r), run).host)
    requires var s := Exec(cfg, Init(capacity, r), run); d == Begin(cfg, s.host, s.dev, b).1
    requires d.done <= |d.ops| && 0 < d.header.numTasks == |bodies| < U32 && 0 < grid < U32
    requires l == LaunchOf(true, PlaneOf(d), Grid(grid, 1, 1), bodies, l.timerOn)
    requires l.Valid() && Driver.Completes(l, mem, rows, es)
    ensures d.header.stamp == d.header.numTasks <= |Published(d)|
    ensures var s := Driver.Outcome(l, mem, rows, es);
            && (forall k :: 0 <= k < |s.served| ==> s.served[k] < |l.task|)
            && (IsPerm(TasksRun(l, s), grid)
                <==> grid == d.header.numTasks || (grid < d.header.numTasks && IsPerm(Published(d)[..grid], grid)))
  {
    var s := Exec(cfg, Init(capacity, r), run);
    InitOrder(cfg, capacity, r);
    OrderRun(cfg, Init(capacity, r), run);
    assert d == s.dev;
    hide Begin, Exec, IsRun, Init;
    StaleLaunch(d, grid, bodies, mem, rows, es, l);
  }

  lemma StaleLaunch(d: Device, grid: nat, bodies: seq<seq<Driver.Cell>>, mem: map<nat, int>, rows: seq<nat>,
                    es: seq<Driver.Event>, l: Driver.Launch)
    requires d.done <= |d.ops| && Remap.Permutes(Published(d), d.header.stamp)
    requires 0 < d.header.stamp == d.header.numTasks == |bodies| < U32 && 0 < grid < U32
    requires l == LaunchOf(true, PlaneOf(d), Grid(grid, 1, 1), bodies, l.timerOn)
    requires l.Valid() && Driver.Completes(l, mem, rows, es)
    ensures d.header.numTasks <= |Published(d)| && l.task == Published(d)[..d.header.numTasks]
    ensures var s := Driver.Outcome(l, mem, rows, es);
            && IsPerm(s.served, Min(grid, d.header.numTasks))
            && (IsPerm(TasksRun(l, s), grid)
                <==> grid == d.header.numTasks || (grid < d.header.numTasks && IsPerm(Published(d)[..grid], grid)))
  {
    var k := d.header.numTasks;
    var p, g := PlaneOf(d), Grid(grid, 1, 1);
    hide Driver.Completes, Driver.Outcome, Published;
    Remap.DriverAppliesOrder(Published(d), k, k);
    assert forall i :: 0 <= i < k ==> Published(d)[i] == Published(d)[..k][i];
    assert Tasks(p, g, Driver.Clc) == Published(d)[..k];
    ClcServesSmallerPrefix(p, g, bodies, mem, rows, es, l);
    ClcRunsOwnTilesIff(p, g, bodies, mem, rows, es, l);
    if grid <= k {
      assert Published(d)[..k][..grid] == Published(d)[..grid];
    }
  }

  // ------------------------------------------------------------------
  // Both failing sides, in one reachable state.
  // ------------------------------------------------------------------

  const CADENCE: Config := Config(2, 2, false, On, false, false)

  /** A planned batch of three tiles with claims on, then an off-cadence batch. */
  function StaleRun(): seq<Event> {
    [BatchBegin(DemoBatch([5, 6, 7], [2, 1, 0])), BatchEnd, BatchBegin(DemoBatch([8, 9], [0, 1]))]
  }

  lemma StaleArms(h: Host, d: Device, b: Batch)
    requires h == Init(3, 0).host && d == Init(3, 0).dev && b == DemoBatch([5, 6, 7], [2, 1, 0])
    ensures var (h', d') := Begin(CADENCE, h, d, b);
            && d'.table == [2, 1, 0] && d'.header.stamp == 3 && d'.header.numTasks == 3 && d'.ops == [] && d'.done == 0
            && h'.step == 1 && h'.mirror == d'.header
  {
  }

  ghost predicate StaleArmed(d: Device) {
    d.done <= |d.ops| && Published(d) == [2, 1, 0] && d.header.stamp == 3 && d.header.numTasks == 3
  }

  /** The run leaves the plane armed for three tiles, with the ends of the order swapped. */
  lemma StaleState()
    ensures IsRun(CADENCE, Init(3, 0), StaleRun())
    ensures StaleArmed(Exec(CADENCE, Init(3, 0), StaleRun()).dev)
  {
    var s0, es := Init(3, 0), StaleRun();
    StaleArms(s0.host, s0.dev, es[0].batch);
    var s1 := Step(CADENCE, s0, es[0]);
    var s2 := Step(CADENCE, s1, es[1]);
    assert !Planned(CADENCE, s2.host);
    BeginExits(CADENCE, s2, es[2].batch);
    hide Begin;
    RunOfThree(CADENCE, s0, es);
  }

  /**
   There, every complete run of a launch of two tiles runs tile 2, outside its grid, and never its
   own tile 0; and every complete run of a launch of four tiles never runs its tile 3.
   */
  lemma StaleArmMissesTiles(grid: nat, bodies: seq<seq<Driver.Cell>>, mem: map<nat, int>, rows: seq<nat>,
                            es: seq<Driver.Event>, d: Device, l: Driver.Launch)
    requires StaleArmed(d) && |bodies| == 3 && (grid == 2 || grid == 4)
    requires l == LaunchOf(true, PlaneOf(d), Grid(grid, 1, 1), bodies, l.timerOn)
    requires l.Valid() && Driver.Completes(l, mem, rows, es)
    ensures var s := Driver.Outcome(l, mem, rows, es);
            && (forall k :: 0 <= k < |s.served| ==> s.served[k] < |l.task|)
            && (grid == 2 ==> 2 in TasksRun(l, s) && 0 !in TasksRun(l, s))
            && (grid == 4 ==> 3 !in TasksRun(l, s))
  {
    hide Driver.Outcome, Published;
    StaleLaunch(d, grid, bodies, mem, rows, es, l);
    var s := Driver.Outcome(l, mem, rows, es);
    if grid == 2 {
      var k := PlaceOf(s.served, 2, 0);
      assert TasksRun(l, s)[k] == 2;
    }
  }
}
