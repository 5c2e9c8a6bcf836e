/**
 The order the control plane publishes, over every run of the serving loop.
 */
module ServingOrder {
  import opened Prelude
  import opened ProbeFold
  import opened Serving
  import Remap

  /** The table once the queued copies have landed. */
  function TableAfter(table: seq<nat>, queue: seq<Op>): (t: seq<nat>)
    ensures |t| == |table|
  {
    if queue == [] then table
    else
      var n := |queue| - 1;
      var t := TableAfter(table, queue[..n]);
      if queue[n].Copy? then Overlay(t, queue[n].order) else t
  }

  /** What launches enqueued from now on will read. */
  function Published(d: Device): seq<nat>
    requires d.done <= |d.ops|
  {
    TableAfter(d.table, d.ops[d.done..])
  }

  lemma TableAppend(table: seq<nat>, queue: seq<Op>, op: Op)
    ensures TableAfter(table, queue + [op])
            == if op.Copy? then Overlay(TableAfter(table, queue), op.order) else TableAfter(table, queue)
  {
    assert (queue + [op])[..|queue|] == queue;
  }

  lemma {:induction false} TablePop(table: seq<nat>, queue: seq<Op>)
    requires queue != []
    ensures TableAfter(table, queue)
            == TableAfter(if queue[0].Copy? then Overlay(table, queue[0].order) else table, queue[1..])
  {
    var n := |queue| - 1;
    if n > 0 {
      TablePop(table, queue[..n]);
      assert queue[..n][1..] == queue[1..][..n - 1];
    }
  }

  lemma {:induction false} NoCopies(table: seq<nat>, queue: seq<Op>)
    requires forall i :: 0 <= i < |queue| ==> !queue[i].Copy?
    ensures TableAfter(table, queue) == table
  {
    if queue != [] { NoCopies(table, queue[..|queue| - 1]); }
  }

  lemma PublishedAppend(d: Device, d': Device, op: Op)
    requires d.done <= |d.ops| && d'.table == d.table && d'.ops == d.ops + [op] && d'.done == d.done
    ensures Published(d') == if op.Copy? then Overlay(Published(d), op.order) else Published(d)
  {
    assert d'.ops[d.done..] == d.ops[d.done..] + [op];
    TableAppend(d.table, d.ops[d.done..], op);
  }

  lemma PublishedPop(d: Device, d': Device)
    requires d.done < |d.ops| && d'.ops == d.ops && d'.done == d.done + 1
    requires d'.table == if d.ops[d.done].Copy? then Overlay(d.table, d.ops[d.done].order) else d.table
    ensures Published(d') == Published(d)
  {
    TablePop(d.table, d.ops[d.done..]);
    assert d.ops[d.done..][1..] == d'.ops[d'.done..];
  }

  lemma PublishedSet(cfg: Config, d: Device, order: seq<nat>)
    requires d.done <= |d.ops|
    requires !cfg.orderDevice ==> forall i :: d.done <= i < |d.ops| ==> !d.ops[i].Copy?
    ensures var d' := SetOrder(cfg, d, order);
            d'.done <= |d'.ops| && Published(d') == Overlay(Published(d), order)
  {
    var d' := SetOrder(cfg, d, order);
    if cfg.orderDevice {
      PublishedAppend(d, d', Copy(order));
    } else {
      NoCopies(d.table, d.ops[d.done..]);
      NoCopies(d'.table, d.ops[d.done..]);
    }
  }

  /** Between hooks the mirror has been pushed, and the host channel queues no copies. */
  ghost predicate Synced(cfg: Config, s: State) {
    && s.dev.done <= |s.dev.ops|
    && (!cfg.orderDevice ==> forall i :: 0 <= i < |s.dev.ops| ==> !s.dev.ops[i].Copy?)
    && s.host.mirror == s.dev.header
  }

  /**
   What every run keeps: the recorded order size is the stamp, no recorded order means a neutral
   table, a stamped table permutes that many tiles, and claims are armed for the stamped count.
   */
  ghost predicate OrderOk(orderN: Option<nat>, header: Header, table: seq<nat>) {
    && (orderN.None? ==> header.stamp == 0 && Remap.IsIdentity(table))
    && (orderN.Some? ==> header.stamp == orderN.value)
    && (header.stamp > 0 ==> Remap.Permutes(table, header.stamp))
    && (header.numTasks > 0 ==> header.stamp == header.numTasks)
  }

  ghost predicate OrderInv(cfg: Config, s: State) {
    Synced(cfg, s) && OrderOk(s.host.orderN, s.host.mirror, Published(s.dev))
  }

  /** Launches of every size enqueued from now on would be served once each. */
  ghost predicate ServesAll(d: Device)
    requires d.done <= |d.ops|
  {
    Remap.ServesEveryGrid(Published(d), d.header.stamp)
  }

  /** The decision takes one of the two branches that install an order. */
  predicate Installs(cfg: Config, h: Host, d: Device, b: Batch) {
    !cfg.observeOnly && (Arms(cfg, h, b) || (!OneWave(h, b) && Idle(h, d)))
  }

  /** The decision retires a recorded order. */
  predicate Retires(cfg: Config, h: Host, b: Batch) {
    !cfg.observeOnly && !Arms(cfg, h, b) && OneWave(h, b) && h.orderN.Some?
  }

  /** It unstamps a table that is not its own inverse. */
  predicate Unstamps(cfg: Config, h: Host, d: Device, b: Batch)
    requires d.done <= |d.ops|
  {
    Installs(cfg, h, d, b) && b.Tiles() == 0 && !Remap.Involution(Published(d))
  }

  /** It puts a whole new order in place. */
  predicate Rewrites(cfg: Config, h: Host, d: Device, b: Batch) {
    (Installs(cfg, h, d, b) && b.Tiles() > 0) || Retires(cfg, h, b)
  }

  /** An empty batch installs: it stamps 0, which means unchecked, over a table that is not its own inverse. */
  predicate EmptyInstall(cfg: Config, s: State, e: Event) {
    && e.BatchBegin? && s.dev.done <= |s.dev.ops| && Reaches(cfg, s, e.batch)
    && Unstamps(cfg, Deciding(cfg, s, e.batch), s.dev, e.batch)
  }

  /** A planned step puts a whole new order in place. */
  predicate Renews(cfg: Config, s: State, e: Event) {
    e.BatchBegin? && Reaches(cfg, s, e.batch) && Rewrites(cfg, Deciding(cfg, s, e.batch), s.dev, e.batch)
  }

  lemma OverlayOrder(table: seq<nat>, order: seq<nat>, n: nat)
    requires n <= |table| && IsPerm(order, n)
    ensures Remap.Permutes(Overlay(table, order), n)
    ensures n == 0 ==> Overlay(table, order) == table
  {
    assert Overlay(table, order)[..n] == order;
  }

  lemma OverlayIdentity(table: seq<nat>)
    ensures Remap.IsIdentity(Overlay(table, Identity(|table|)))
  {
  }

  /** The invariant between a decision and its push: the mirror is ahead of the header. */
  ghost predicate Ready(cfg: Config, h: Host, d: Device) {
    && d.done <= |d.ops|
    && (!cfg.orderDevice ==> forall i :: 0 <= i < |d.ops| ==> !d.ops[i].Copy?)
    && OrderOk(h.orderN, h.mirror, Published(d))
  }

  /** What launches of every size would make of the mirror once it is pushed. */
  ghost predicate WouldServe(h: Host, d: Device)
    requires d.done <= |d.ops|
  {
    Remap.ServesEveryGrid(Published(d), h.mirror.stamp)
  }

  /** Under the invariant every launch is served exactly when the order is stamped or its own inverse. */
  lemma ServesIff(orderN: Option<nat>, header: Header, table: seq<nat>)
    requires OrderOk(orderN, header, table)
    ensures Remap.ServesEveryGrid(table, header.stamp) <==> header.stamp > 0 || Remap.Involution(table)
  {
    Remap.EveryGridIff(table, header.stamp);
    if header.stamp > 0 { Remap.PrefixShuffles(table, header.stamp); }
  }

  lemma InstalledReady(cfg: Config, h: Host, d: Device, b: Batch)
    requires Ready(cfg, h, d) && b.Ordered() && b.Tiles() <= |d.table|
    ensures var (h', d') := Installed(cfg, h, d, b);
            && d'.done == d.done && |d'.table| == |d.table|
            && (forall n: nat :: n == 0 || n == b.Tiles() ==>
                  Ready(cfg, h'.(mirror := h'.mirror.(numTasks := n)), d'))
            && (WouldServe(h', d') <==> b.Tiles() > 0 || Remap.Involution(Published(d)))
  {
    PublishedSet(cfg, d, b.order);
    OverlayOrder(Published(d), b.order, b.Tiles());
    hide Published, Overlay, Remap.ServesEveryGrid, Remap.Involution, Remap.Permutes;
    var (h', d') := Installed(cfg, h, d, b);
    ServesIff(h'.orderN, h'.mirror.(numTasks := 0), Published(d'));
  }

  lemma RetiredReady(cfg: Config, h: Host, d: Device)
    requires Ready(cfg, h, d)
    ensures var h', d' := h.(mirror := h.mirror.(stamp := 0, numTasks := 0), orderN := None),
                          SetOrder(cfg, d, Identity(|d.table|));
            && Ready(cfg, h', d') && d'.done == d.done && |d'.table| == |d.table| && WouldServe(h', d')
  {
    PublishedSet(cfg, d, Identity(|d.table|));
    OverlayIdentity(Published(d));
    hide Published, Overlay, Remap.ServesEveryGrid;
    var h', d' := h.(mirror := h.mirror.(stamp := 0, numTasks := 0), orderN := None),
                  SetOrder(cfg, d, Identity(|d.table|));
    ServesIff(h'.orderN, h'.mirror, Published(d'));
  }

  /**
   Arm, retire and queued install each keep the invariant. Launches of every size are served
   afterwards exactly if the decision does not unstamp a table that is not its own inverse, and they
   were served before or the whole order is new.
   */
  lemma DecideOrder(cfg: Config, h: Host, d: Device, b: Batch)
    requires Ready(cfg, h, d) && b.Ordered() && b.Tiles() <= |d.table| && !cfg.observeOnly
    ensures var (h', d') := Decide(cfg, h, d, b);
            && Ready(cfg, h', d') && d'.done == d.done && |d'.table| == |d.table|
            && (WouldServe(h', d')
                <==> !Unstamps(cfg, h, d, b) && (WouldServe(h, d) || Rewrites(cfg, h, d, b)))
  {
    InstalledReady(cfg, h, d, b);
    RetiredReady(cfg, h, d);
    ServesIff(h.orderN, h.mirror, Published(d));
    hide Published, SetOrder, Remap.ServesEveryGrid, Remap.Involution, Remap.Permutes, Remap.IsIdentity;
  }

  /** A push and a clear leave the published order alone. */
  lemma PublishedFrame(cfg: Config, d: Device, m: Header, probe: bool)
    requires d.done <= |d.ops|
    ensures var d' := if probe then ClearTimer(cfg, d.(header := m)) else d.(header := m);
            d'.done <= |d'.ops| && Published(d') == Published(d) && d'.header == m
  {
    var d3 := d.(header := m);
    assert Published(d3) == Published(d);
    if probe && cfg.timerDevice {
      PublishedAppend(d3, ClearTimer(cfg, d3), Clear);
    } else if probe {
      assert Published(ClearTimer(cfg, d3)) == Published(d3);
    }
  }

  lemma PlanOrder(cfg: Config, h: Host, d: Device, b: Batch, step: nat, probe: bool)
    requires OrderInv(cfg, State(h, d, None)) && b.Ordered() && b.Tiles() <= |d.table| && b.slots.Some?
    ensures var (h', d') := Plan(cfg, h, d, b, step, probe);
            && OrderInv(cfg, State(h', d', Some(step))) && |d'.table| == |d.table|
            && (ServesAll(d') <==> !Unstamps(cfg, h, d, b) && (ServesAll(d) || Rewrites(cfg, h, d, b)))
  {
    var h1 := h.(armed := probe, mirror := h.mirror.(timerOff := !probe));
    assert Ready(cfg, h1, d);
    if !cfg.observeOnly {
      DecideOrder(cfg, h1, d, b);
    }
    var (h2, d2) :=
      if cfg.observeOnly then (h1.(mirror := h1.mirror.(numTasks := 0)), d)
      else Decide(cfg, h1, d, b);
    assert Unstamps(cfg, h1, d, b) == Unstamps(cfg, h, d, b) && Rewrites(cfg, h1, d, b) == Rewrites(cfg, h, d, b);
    hide Decide, Published, Unstamps, Rewrites, Remap.ServesEveryGrid, Remap.Permutes;
    PublishedFrame(cfg, d2, h2.mirror, probe);
  }

  lemma BeginSkips(cfg: Config, s: State, b: Batch)
    requires OrderInv(cfg, s) && !Reaches(cfg, s, b)
    ensures var (h, d) := Begin(cfg, s.host, s.dev, b);
            d == s.dev && OrderInv(cfg, State(h, d, Some(s.host.step)))
  {
    BeginExits(cfg, s, b);
    hide Begin, Reaches;
  }

  lemma BeginOrder(cfg: Config, s: State, b: Batch)
    requires OrderInv(cfg, s) && b.Ordered()
    ensures var (h, d) := Begin(cfg, s.host, s.dev, b);
            var e := BatchBegin(b);
            && OrderInv(cfg, State(h, d, Some(s.host.step))) && |d.table| == |s.dev.table|
            && (ServesAll(d) <==> !EmptyInstall(cfg, s, e) && (ServesAll(s.dev) || Renews(cfg, s, e)))
  {
    if Reaches(cfg, s, b) {
      BeginPlans(cfg, s, b);
      var h := Deciding(cfg, s, b);
      assert OrderInv(cfg, State(h, s.dev, None));
      hide Plan, Begin, Deciding, Unstamps, Rewrites, ServesAll;
      PlanOrder(cfg, h, s.dev, b, s.host.step, Probing(cfg, s.host));
    } else {
      BeginSkips(cfg, s, b);
    }
  }

  /**
   What a planned step publishes: the batch's order stamped for it when it installs, the neutral
   order when it retires one, what was there otherwise; num_tasks on exactly when it arms; the timer
   on exactly when it probes; and the binding of its own batch.
   */
  lemma PlannedStep(cfg: Config, s: State, b: Batch)
    requires Synced(cfg, s) && Reaches(cfg, s, b)
    ensures var (h, d) := Begin(cfg, s.host, s.dev, b);
            var now := Deciding(cfg, s, b);
            var arms := !cfg.observeOnly && Arms(cfg, now, b);
            var retires := !cfg.observeOnly && !arms && OneWave(now, b) && s.host.orderN.Some?;
            && Synced(cfg, State(h, d, Some(s.host.step)))
            && Published(d) == (if Installs(cfg, now, s.dev, b) then Overlay(Published(s.dev), b.order)
                                else if retires then Overlay(Published(s.dev), Identity(|s.dev.table|))
                                else Published(s.dev))
            && d.header == Header(if Installs(cfg, now, s.dev, b) then b.Tiles()
                                  else if retires then 0 else s.dev.header.stamp,
                                  if arms then b.Tiles() else 0,
                                  !Probing(cfg, s.host))
            && h.armed == Probing(cfg, s.host)
            && h.binding == Some(Binding(s.host.step, b.slots.value, b.kvs, b.tileMap))
  {
    BeginPlans(cfg, s, b);
    assert Synced(cfg, State(Deciding(cfg, s, b), s.dev, None));
    assert Deciding(cfg, s, b).orderN == s.host.orderN;
    hide Begin, Deciding, Reaches, Probing;
    PlanPublishes(cfg, Deciding(cfg, s, b), s.dev, b, s.host.step, Probing(cfg, s.host));
  }

  lemma PlanPublishes(cfg: Config, h0: Host, d0: Device, b: Batch, step: nat, probe: bool)
    requires Synced(cfg, State(h0, d0, None)) && b.slots.Some?
    ensures var (h, d) := Plan(cfg, h0, d0, b, step, probe);
            var arms := !cfg.observeOnly && Arms(cfg, h0, b);
            var retires := !cfg.observeOnly && !arms && OneWave(h0, b) && h0.orderN.Some?;
            && Synced(cfg, State(h, d, Some(step)))
            && Published(d) == (if Installs(cfg, h0, d0, b) then Overlay(Published(d0), b.order)
                                else if retires then Overlay(Published(d0), Identity(|d0.table|))
                                else Published(d0))
            && d.header == Header(if Installs(cfg, h0, d0, b) then b.Tiles()
                                  else if retires then 0 else d0.header.stamp,
                                  if arms then b.Tiles() else 0,
                                  !probe)
            && h.armed == probe
            && h.binding == Some(Binding(step, b.slots.value, b.kvs, b.tileMap))
  {
    var h1 := h0.(armed := probe, mirror := h0.mirror.(timerOff := !probe));
    PublishedSet(cfg, d0, b.order);
    PublishedSet(cfg, d0, Identity(|d0.table|));
    hide Overlay;
    var (h2, d2) :=
      if cfg.observeOnly then (h1.(mirror := h1.mirror.(numTasks := 0)), d0)
      else Decide(cfg, h1, d0, b);
    PublishedFrame(cfg, d2, h2.mirror, probe);
  }

  lemma DeviceOrder(cfg: Config, s: State, e: Event)
    requires OrderInv(cfg, s) && Enabled(s, e) && !e.BatchBegin?
    ensures var s' := Step(cfg, s, e);
            && OrderInv(cfg, s') && |s'.dev.table| == |s.dev.table|
            && Published(s'.dev) == Published(s.dev) && s'.dev.header.stamp == s.dev.header.stamp
  {
    var d, d' := s.dev, Step(cfg, s, e).dev;
    if e.Enqueue? {
      PublishedAppend(d, d', Launch(s.current, e.grid));
    } else if e.Complete? || e.Perform? {
      PublishedPop(d, d');
    } else {
      assert Published(d') == Published(d);
    }
    hide Published, Remap.Permutes, Remap.IsIdentity;
  }

  /**
   Every step keeps the invariant. Launches of every size are served after it exactly if it is no
   empty install over a table that is not its own inverse, and they were served before it or it puts
   a whole new order in place.
   */
  lemma OrderStep(cfg: Config, s: State, e: Event)
    requires OrderInv(cfg, s) && Enabled(s, e)
    ensures var s' := Step(cfg, s, e);
            && OrderInv(cfg, s') && |s'.dev.table| == |s.dev.table|
            && (ServesAll(s'.dev) <==> !EmptyInstall(cfg, s, e) && (ServesAll(s.dev) || Renews(cfg, s, e)))
  {
    hide Begin, Published, Remap.ServesEveryGrid;
    if e.BatchBegin? {
      hide EmptyInstall, Renews;
      BeginOrder(cfg, s, e.batch);
    } else {
      DeviceOrder(cfg, s, e);
    }
  }

  ghost predicate NeverEmptyInstall(cfg: Config, s: State, es: seq<Event>)
    requires IsRun(cfg, s, es)
    decreases |es|
  {
    es == [] || (!EmptyInstall(cfg, s, es[0]) && NeverEmptyInstall(cfg, Step(cfg, s, es[0]), es[1..]))
  }

  lemma {:induction false} OrderRun(cfg: Config, s: State, es: seq<Event>)
    requires OrderInv(cfg, s) && IsRun(cfg, s, es)
    ensures OrderInv(cfg, Exec(cfg, s, es)) && |Exec(cfg, s, es).dev.table| == |s.dev.table|
    ensures ServesAll(s.dev) && NeverEmptyInstall(cfg, s, es) ==> ServesAll(Exec(cfg, s, es).dev)
    decreases |es|
  {
    if es != [] {
      OrderStep(cfg, s, es[0]);
      assert OrderInv(cfg, Step(cfg, s, es[0]));
      hide OrderOk, ServesAll, Step, Enabled, EmptyInstall, Renews, Published;
      OrderRun(cfg, Step(cfg, s, es[0]), es[1..]);
    }
  }

  lemma InitOrder(cfg: Config, capacity: nat, r: nat)
    ensures OrderInv(cfg, Init(capacity, r)) && ServesAll(Init(capacity, r).dev)
  {
    var s := Init(capacity, r);
    assert Remap.Involution(Published(s.dev)) by {
      assert forall i :: 0 <= i < capacity ==> Remap.SelfInverse(s.dev.table, i);
    }
    ServesIff(s.host.orderN, s.dev.header, Published(s.dev));
  }

  /** The table the driver's claim loop reads: the published one, or the words of the tensor's address. */
  function DriverTable(cfg: Config, d: Device, address: nat): seq<nat>
    requires d.done <= |d.ops|
  {
    if cfg.orderDevice then Remap.ArenaWordsOnDeviceChannel(address, |d.table|) else Published(d)
  }

  /**
   In every run, empty installs included: a launch of any one size serves each tile once exactly when
   the published order is stamped or shuffles that many tiles among themselves, and launches of all
   sizes do exactly when it is stamped or its own inverse, as it always is unless an empty batch
   installs over one that is not. The driver's claim loop always does on the
   host channel; on the device channel exactly when the tensor's address happens to be harmless.
   */
  lemma EverySnapshotServesAll(cfg: Config, capacity: nat, r: nat, es: seq<Event>, grid: nat, address: nat)
    requires IsRun(cfg, Init(capacity, r), es)
    ensures var d := Exec(cfg, Init(capacity, r), es).dev;
            && d.done <= |d.ops| && |d.table| == capacity
            && (IsPerm(Remap.WeaveTasks(Remap.Direct(Published(d)), Some(d.header.stamp), grid), grid)
                <==> d.header.stamp > 0 || Remap.Shuffles(Published(d), grid, grid))
            && (ServesAll(d) <==> d.header.stamp > 0 || Remap.Involution(Published(d)))
            && (NeverEmptyInstall(cfg, Init(capacity, r), es) ==> ServesAll(d))
            && var n := d.header.numTasks;
               IsPerm(Remap.DriverTasks(Some(DriverTable(cfg, d, address)), d.header.stamp, n, n), n)
               <==> !cfg.orderDevice || Remap.AddressHarmless(address, d.header.stamp, n, capacity)
  {
    InitOrder(cfg, capacity, r);
    OrderRun(cfg, Init(capacity, r), es);
    var s := Exec(cfg, Init(capacity, r), es);
    hide Exec, IsRun, Init;
    SnapshotServes(s.host.orderN, s.dev.header, Published(s.dev), grid);
    if cfg.orderDevice {
      Remap.AddressWordsBijectiveIff(address, s.dev.header.stamp, s.dev.header.numTasks, capacity);
    }
  }

  /** What the invariant makes of one snapshot: a launch of one size, of every size, and the claim loop. */
  lemma SnapshotServes(orderN: Option<nat>, header: Header, table: seq<nat>, grid: nat)
    requires OrderOk(orderN, header, table)
    ensures IsPerm(Remap.WeaveTasks(Remap.Direct(table), Some(header.stamp), grid), grid)
            <==> header.stamp > 0 || Remap.Shuffles(table, grid, grid)
    ensures Remap.ServesEveryGrid(table, header.stamp) <==> header.stamp > 0 || Remap.Involution(table)
    ensures Remap.DriverSound(Some(table), header.stamp, header.numTasks, header.numTasks)
    ensures IsPerm(Remap.DriverTasks(Some(table), header.stamp, header.numTasks, header.numTasks), header.numTasks)
  {
    ServesIff(orderN, header, table);
    Remap.WeaveRemapBijective(Remap.Direct(table), Some(header.stamp), grid);
    Remap.DriverRemapBijective(Some(table), header.stamp, header.numTasks, header.numTasks);
    if header.stamp > 0 { Remap.PrefixShuffles(table, header.stamp); }
  }

  const DEMO: Config := Config(1, 1, false, Off, false, false)

  function DemoBatch(slots: seq<int>, order: seq<nat>): Batch {
    Batch(Some(slots), [], None, order, false, 0)
  }

  /** A queued batch of three tiles, then an empty one. */
  function EmptyBatchRun(): seq<Event> {
    [BatchBegin(DemoBatch([5, 6, 7], [1, 2, 0])), BatchEnd, BatchBegin(DemoBatch([], []))]
  }

  lemma RunOfThree(cfg: Config, s: State, es: seq<Event>)
    requires |es| == 3 && Enabled(s, es[0])
    requires var s1 := Step(cfg, s, es[0]);
             Enabled(s1, es[1]) && Enabled(Step(cfg, s1, es[1]), es[2])
    ensures IsRun(cfg, s, es)
    ensures Exec(cfg, s, es) == Step(cfg, Step(cfg, Step(cfg, s, es[0]), es[1]), es[2])
  {
    hide Step, Enabled;
    var s1 := Step(cfg, s, es[0]);
    var s2 := Step(cfg, s1, es[1]);
    assert es[1..][1..] == [es[2]] && [es[2]][1..] == [];
    assert IsRun(cfg, s2, [es[2]]) && Exec(cfg, s2, [es[2]]) == Step(cfg, s2, es[2]);
    assert IsRun(cfg, s1, es[1..]);
  }

  lemma DemoInstalls(h: Host, d: Device, b: Batch)
    requires h.step < 2 && h.r == 0 && b.slots.Some? && b.tileMap.None? && b.Tiles() <= |d.table|
    requires h.inflight.None? || d.done >= h.inflight.value
    ensures var (h', d') := Begin(DEMO, h, d, b);
            && d'.table == Overlay(d.table, b.order) && d'.header.stamp == b.Tiles() && d'.ops == d.ops
            && d'.done == d.done && d'.blocks == d.blocks && d'.records == d.records
            && h'.step == h.step + 1 && h'.r == 0 && h'.inflight == h.inflight
  {
    hide Consume;
    ConsumeKeeps(h.(step := h.step + 1), d);
  }

  lemma ConsumeKeeps(h: Host, d: Device)
    ensures var h' := Consume(h, d);
            h'.r == h.r && h'.inflight == h.inflight && h'.step == h.step && h'.mirror == h.mirror
            && h'.orderN == h.orderN
  {
    hide PerRequest;
  }

  lemma DemoRun()
    ensures var s0, es := Init(3, 0), EmptyBatchRun();
            && Enabled(s0, es[0])
            && var s1 := Step(DEMO, s0, es[0]);
               && Enabled(s1, es[1])
               && var s2 := Step(DEMO, s1, es[1]);
                  && Enabled(s2, es[2])
                  && var d := Step(DEMO, s2, es[2]).dev;
                     d.table == [1, 2, 0] && d.ops == [] && d.done == 0 && d.header.stamp == 0
  {
    hide Begin;
    var s0, es := Init(3, 0), EmptyBatchRun();
    assert s0.dev.table == [0, 1, 2];
    DemoInstalls(s0.host, s0.dev, es[0].batch);
    var s1 := Step(DEMO, s0, es[0]);
    assert s1.dev.table == [1, 2, 0];
    var s2 := Step(DEMO, s1, es[1]);
    DemoInstalls(s2.host, s2.dev, es[2].batch);
  }

  /** The empty batch un-stamps the order of three, and a launch of two then serves tile 1 twice. */
  lemma EmptyInstallBreaks()
    ensures IsRun(DEMO, Init(3, 0), EmptyBatchRun())
    ensures var d := Exec(DEMO, Init(3, 0), EmptyBatchRun()).dev;
            && d.done <= |d.ops| && Published(d) == [1, 2, 0] && d.header.stamp == 0
            && Remap.WeaveTasks(Remap.Direct(Published(d)), Some(d.header.stamp), 2) == [1, 1]
  {
    hide Step, Enabled, Init, IsRun, Exec;
    DemoRun();
    RunOfThree(DEMO, Init(3, 0), EmptyBatchRun());
  }
}
