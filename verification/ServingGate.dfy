/**
 With the claim loop off and R unknown, orders are installed only after the last step's event has
 fired. Then no order write lands under a running launch, and every launch reads one snapshot although
 its blocks read the table one by one as they start.
 */
module ServingGate {
  import opened Prelude
  import opened Serving
  import opened ServingOrder
  import opened ServingRuns
  import Remap

  predicate AtHead(d: Device) {
    d.done < |d.ops| && d.ops[d.done].Launch?
  }

  /** No launch is queued or running. */
  predicate Quiet(d: Device) {
    forall i :: d.done <= i < |d.ops| ==> !d.ops[i].Launch?
  }

  /** Outside a batch, the last event covers every launch that is not done. */
  ghost predicate Covered(s: State) {
    s.current.None? ==>
      forall i :: s.dev.done <= i < |s.dev.ops| && s.dev.ops[i].Launch? ==>
        s.host.inflight.Some? && i < s.host.inflight.value
  }

  /** No copy is queued behind a launch. */
  ghost predicate CopiesFirst(d: Device) {
    forall i, j :: d.done <= i < j < |d.ops| && d.ops[i].Launch? ==> !d.ops[j].Copy?
  }

  function TaskNow(d: Device, grid: nat, b: nat): nat {
    Remap.WeaveRemap(Remap.Direct(d.table), Some(d.header.stamp), grid, b)
  }

  /** Every block of the running launch read the table and stamp that are there now. */
  ghost predicate Frozen(d: Device) {
    && (d.blocks != map[] ==> AtHead(d))
    && forall b :: b in d.blocks ==> d.blocks[b].task == TaskNow(d, d.ops[d.done].grid, b)
  }

  /** Block by block, a finished launch read one snapshot, which permutes the tiles it is stamped for. */
  ghost predicate OneSnapshot(rec: Record) {
    && rec.tasks == Remap.WeaveTasks(Remap.Direct(rec.table), Some(rec.stamp), |rec.tasks|)
    && (rec.stamp > 0 ==> Remap.Permutes(rec.table, rec.stamp))
  }

  ghost predicate AllConsistent(records: seq<Record>) {
    forall k :: 0 <= k < |records| ==> OneSnapshot(records[k])
  }

  ghost predicate AllBijective(records: seq<Record>) {
    forall k :: 0 <= k < |records| ==> IsPerm(records[k].tasks, |records[k].tasks|)
  }

  ghost predicate GateInv(cfg: Config, s: State) {
    && s.dev.done <= |s.dev.ops| && s.host.r == 0
    && Covered(s) && CopiesFirst(s.dev) && Frozen(s.dev) && AllConsistent(s.dev.records)
  }

  /** Launches are enqueued by hooked batches only. */
  ghost predicate Hooked(s: State, e: Event) {
    e.Enqueue? ==> s.current.Some?
  }

  lemma IdleIsQuiet(s: State)
    requires Covered(s) && s.current.None? && Idle(s.host, s.dev)
    ensures Quiet(s.dev)
  {
  }

  /** What the hook may do to the device: nothing while a launch is in flight, but for num_tasks and the timer flag. */
  ghost predicate Gentle(d: Device, d': Device) {
    && d'.done == d.done && d'.blocks == d.blocks && d'.records == d.records
    && |d.ops| <= |d'.ops| && (forall i :: 0 <= i < |d.ops| ==> d'.ops[i] == d.ops[i])
    && (forall i :: |d.ops| <= i < |d'.ops| ==> !d'.ops[i].Launch?)
    && (!Quiet(d) ==>
          && d'.table == d.table && d'.header.stamp == d.header.stamp
          && forall i :: |d.ops| <= i < |d'.ops| ==> !d'.ops[i].Copy?)
  }

  lemma DecideGentle(cfg: Config, h: Host, d: Device, b: Batch)
    requires cfg.clc == Off && h.r == 0 && (Idle(h, d) ==> Quiet(d))
    ensures var (h', d') := Decide(cfg, h, d, b);
            Gentle(d, d') && d'.header == d.header && h'.r == 0 && (!Quiet(d) ==> h'.mirror.stamp == h.mirror.stamp)
  {
  }

  lemma PlanGentle(cfg: Config, h: Host, d: Device, b: Batch, step: nat, probe: bool)
    requires cfg.clc == Off && h.r == 0 && (Idle(h, d) ==> Quiet(d)) && b.slots.Some?
    requires h.mirror == d.header
    ensures var (h', d') := Plan(cfg, h, d, b, step, probe); Gentle(d, d') && h'.r == 0
  {
    var h1 := h.(armed := probe, mirror := h.mirror.(timerOff := !probe));
    DecideGentle(cfg, h1, d, b);
    var (h2, d2) :=
      if cfg.observeOnly then (h1.(mirror := h1.mirror.(numTasks := 0)), d)
      else Decide(cfg, h1, d, b);
    assert Gentle(d, d2);
    var d3 := d2.(header := h2.mirror);
    assert Gentle(d, d3);
    hide Decide;
    if probe { assert Gentle(d, ClearTimer(cfg, d3)); }
  }

  lemma BeginGentle(cfg: Config, s: State, b: Batch)
    requires cfg.clc == Off && GateInv(cfg, s) && s.current.None? && OrderInv(cfg, s)
    ensures var (h, d) := Begin(cfg, s.host, s.dev, b); Gentle(s.dev, d) && h.r == 0
  {
    if Reaches(cfg, s, b) {
      BeginPlans(cfg, s, b);
      if Idle(s.host, s.dev) { IdleIsQuiet(s); }
      PlanGentle(cfg, Deciding(cfg, s, b), s.dev, b, s.host.step, Probing(cfg, s.host));
    } else {
      BeginSkips(cfg, s, b);
    }
  }

  lemma GentleKeeps(d: Device, d': Device)
    requires d.done <= |d.ops| && Gentle(d, d') && CopiesFirst(d) && Frozen(d)
    ensures CopiesFirst(d') && Frozen(d')
  {
    if Quiet(d) {
      assert d.blocks == map[];
    }
  }

  lemma CompleteConsistent(cfg: Config, s: State)
    requires OrderInv(cfg, s) && GateInv(cfg, s) && Enabled(s, Complete)
    ensures AllConsistent(Step(cfg, s, Complete).dev.records)
  {
    var d := s.dev;
    var rec := Step(cfg, s, Complete).dev.records[|d.records|];
    NoCopies(d.table, d.ops[d.done..]);
    hide Remap.Permutes, Remap.IsIdentity;
    assert rec.tasks == Remap.WeaveTasks(Remap.Direct(d.table), Some(d.header.stamp), d.ops[d.done].grid);
    assert OneSnapshot(rec);
  }

  /** If launches of every size are served, so is the one that ends now. */
  lemma BijectiveStep(cfg: Config, s: State, e: Event)
    requires cfg.clc == Off && OrderInv(cfg, s) && GateInv(cfg, s) && Enabled(s, e)
    requires ServesAll(s.dev) && AllBijective(s.dev.records)
    ensures AllBijective(Step(cfg, s, e).dev.records)
  {
    var d := s.dev;
    if e.Complete? {
      var rec := Step(cfg, s, e).dev.records[|d.records|];
      NoCopies(d.table, d.ops[d.done..]);
      hide OrderOk;
      assert rec.tasks == Remap.WeaveTasks(Remap.Direct(d.table), Some(d.header.stamp), d.ops[d.done].grid);
    } else if e.BatchBegin? {
      BeginGentle(cfg, s, e.batch);
      hide Begin;
    }
  }

  lemma BeginGate(cfg: Config, s: State, b: Batch)
    requires cfg.clc == Off && OrderInv(cfg, s) && GateInv(cfg, s) && Enabled(s, BatchBegin(b))
    ensures GateInv(cfg, Step(cfg, s, BatchBegin(b)))
  {
    var s' := Step(cfg, s, BatchBegin(b));
    BeginGentle(cfg, s, b);
    hide Begin;
    GentleKeeps(s.dev, s'.dev);
  }

  lemma GateStep(cfg: Config, s: State, e: Event)
    requires cfg.clc == Off && OrderInv(cfg, s) && GateInv(cfg, s) && Enabled(s, e) && Hooked(s, e)
    ensures GateInv(cfg, Step(cfg, s, e))
  {
    match e
    case BatchBegin(b) => BeginGate(cfg, s, b);
    case Enqueue(grid) =>
    case BatchEnd =>
    case StartBlock(b) =>
    case FinishBlock(b, cycles) =>
    case Complete => CompleteConsistent(cfg, s);
    case Perform =>
  }

  ghost predicate AllHooked(cfg: Config, s: State, es: seq<Event>)
    requires IsRun(cfg, s, es)
    decreases |es|
  {
    es == [] || (Hooked(s, es[0]) && AllHooked(cfg, Step(cfg, s, es[0]), es[1..]))
  }

  lemma {:induction false} GateRun(cfg: Config, s: State, es: seq<Event>)
    requires cfg.clc == Off && OrderInv(cfg, s) && GateInv(cfg, s)
    requires IsRun(cfg, s, es) && AllHooked(cfg, s, es)
    ensures OrderInv(cfg, Exec(cfg, s, es)) && GateInv(cfg, Exec(cfg, s, es))
    ensures NeverEmptyInstall(cfg, s, es) && ServesAll(s.dev) && AllBijective(s.dev.records) ==>
              AllBijective(Exec(cfg, s, es).dev.records)
    decreases |es|
  {
    if es != [] {
      OrderStep(cfg, s, es[0]);
      GateStep(cfg, s, es[0]);
      hide OrderOk, GateInv, ServesAll, AllBijective, Step, Enabled, Hooked, EmptyInstall, Renews, Published;
      if ServesAll(s.dev) && AllBijective(s.dev.records) { BijectiveStep(cfg, s, es[0]); }
      GateRun(cfg, Step(cfg, s, es[0]), es[1..]);
    }
  }

  lemma InitGate(cfg: Config, capacity: nat)
    ensures GateInv(cfg, Init(capacity, 0))
  {
  }

  /**
   Every launch of every run, although its blocks start at different times and batches of other sizes
   begin while it runs: it serves the tiles one snapshot assigns, and each of its tiles once exactly
   when that snapshot is stamped or shuffles the grid's tiles among themselves. So it always is unless
   an empty batch installs over a table that is not its own inverse.
   */
  lemma EveryLaunchBijective(cfg: Config, capacity: nat, es: seq<Event>, k: nat)
    requires cfg.clc == Off && IsRun(cfg, Init(capacity, 0), es)
    requires AllHooked(cfg, Init(capacity, 0), es)
    requires k < |Exec(cfg, Init(capacity, 0), es).dev.records|
    ensures var Record(tasks, table, stamp) := Exec(cfg, Init(capacity, 0), es).dev.records[k];
            && tasks == Remap.WeaveTasks(Remap.Direct(table), Some(stamp), |tasks|)
            && (IsPerm(tasks, |tasks|) <==> stamp > 0 || Remap.Shuffles(table, |tasks|, |tasks|))
            && (NeverEmptyInstall(cfg, Init(capacity, 0), es) ==> IsPerm(tasks, |tasks|))
  {
    InitOrder(cfg, capacity, 0);
    InitGate(cfg, capacity);
    GateRun(cfg, Init(capacity, 0), es);
    var rec := Exec(cfg, Init(capacity, 0), es).dev.records[k];
    assert OneSnapshot(rec);
    Remap.WeaveRemapBijective(Remap.Direct(rec.table), Some(rec.stamp), |rec.tasks|);
    if rec.stamp > 0 { Remap.PrefixShuffles(rec.table, rec.stamp); }
  }

  /**
   In any reachable state of such a run, no step changes the stamp while a launch is queued or
   running, nor the table while one is running.
   */
  lemma NoWriteInFlight(cfg: Config, capacity: nat, es: seq<Event>, e: Event)
    requires cfg.clc == Off && IsRun(cfg, Init(capacity, 0), es)
    requires AllHooked(cfg, Init(capacity, 0), es)
    requires Enabled(Exec(cfg, Init(capacity, 0), es), e)
    ensures var s := Exec(cfg, Init(capacity, 0), es);
            var s' := Step(cfg, s, e);
            && (s'.dev.header.stamp != s.dev.header.stamp ==> Quiet(s.dev))
            && (s'.dev.table != s.dev.table ==> !AtHead(s.dev))
            && (s'.dev.table != s.dev.table && !cfg.orderDevice ==> Quiet(s.dev))
  {
    InitOrder(cfg, capacity, 0);
    InitGate(cfg, capacity);
    GateRun(cfg, Init(capacity, 0), es);
    var s := Exec(cfg, Init(capacity, 0), es);
    if e.BatchBegin? {
      BeginGentle(cfg, s, e.batch);
      hide Begin;
      assert AtHead(s.dev) ==> !Quiet(s.dev);
    }
  }

  // ------------------------------------------------------------------
  // A launch the hooks do not see.
  // ------------------------------------------------------------------

  /** A launch outside any batch is running when the next batch installs: no event covers it. */
  function UnhookedRun(): seq<Event> {
    [BatchBegin(DemoBatch([5, 6], [1, 0])), BatchEnd, Enqueue(2), StartBlock(0),
     BatchBegin(DemoBatch([8, 9], [0, 1])), StartBlock(1), FinishBlock(0, 0), FinishBlock(1, 0), Complete]
  }

  lemma UnhookedStarts()
    ensures IsRun(DEMO, Init(2, 0), UnhookedRun()[..4])
    ensures var s := Exec(DEMO, Init(2, 0), UnhookedRun()[..4]);
            && s.dev.ops == [Launch(None, 2)] && s.dev.done == 0 && s.dev.records == []
            && s.dev.header.stamp == 2 && s.dev.blocks.Keys == {0} && s.dev.blocks[0].Running?
            && s.dev.blocks[0].task == 1 && s.current.None? && |s.dev.table| == 2
            && s.host.step == 1 && s.host.r == 0 && s.host.inflight == Some(0)
  {
    var s0, es := Init(2, 0), UnhookedRun();
    assert es[0].batch.Ordered();
    DemoInstalls(s0.host, s0.dev, es[0].batch);
    hide Begin;
    var s1 := Step(DEMO, s0, es[0]);
    assert s1.dev.table == [1, 0];
    var s2 := Step(DEMO, s1, es[1]);
    var s3 := Step(DEMO, s2, es[2]);
    var s4 := Step(DEMO, s3, es[3]);
    hide Step, Enabled;
    RunOne(DEMO, s3, es[3]);
    RunCons(DEMO, s2, es[2], [es[3]]);
    RunCons(DEMO, s1, es[1], [es[2]] + [es[3]]);
    RunCons(DEMO, s0, es[0], [es[1]] + ([es[2]] + [es[3]]));
    assert es[..4] == [es[0]] + ([es[1]] + ([es[2]] + [es[3]]));
  }

  /** Both blocks of the launch are running for tile 1. */
  lemma BothEnd(s: State)
    requires s.dev.ops == [Launch(None, 2)] && s.dev.done == 0 && s.dev.records == []
    requires s.dev.blocks.Keys == {0, 1}
    requires forall b :: b in s.dev.blocks ==> s.dev.blocks[b].Running? && s.dev.blocks[b].task == 1
    ensures IsRun(DEMO, s, UnhookedRun()[6..])
    ensures var t := Exec(DEMO, s, UnhookedRun()[6..]); |t.dev.records| == 1 && t.dev.records[0].tasks == [1, 1]
  {
    var es := UnhookedRun();
    var s1 := Step(DEMO, s, es[6]);
    var s2 := Step(DEMO, s1, es[7]);
    var s3 := Step(DEMO, s2, es[8]);
    assert s3.dev.records[0].tasks == [1, 1];
    hide Step, Enabled;
    RunOne(DEMO, s2, es[8]);
    RunCons(DEMO, s1, es[7], [es[8]]);
    RunCons(DEMO, s, es[6], [es[7]] + [es[8]]);
    assert es[6..] == [es[6]] + ([es[7]] + [es[8]]);
  }

  lemma UnhookedEnds(s: State)
    requires s.dev.ops == [Launch(None, 2)] && s.dev.done == 0 && s.dev.records == []
    requires s.dev.header.stamp == 2 && s.dev.blocks.Keys == {0} && s.dev.blocks[0].Running?
    requires s.dev.blocks[0].task == 1 && s.current.None? && |s.dev.table| == 2
    requires s.host.step == 1 && s.host.r == 0 && s.host.inflight == Some(0)
    ensures IsRun(DEMO, s, UnhookedRun()[4..])
    ensures var t := Exec(DEMO, s, UnhookedRun()[4..]);
            |t.dev.records| == 1 && t.dev.records[0].tasks == [1, 1]
  {
    var es := UnhookedRun();
    assert es[4].batch.Ordered();
    DemoInstalls(s.host, s.dev, es[4].batch);
    hide Begin;
    var s1 := Step(DEMO, s, es[4]);
    assert s1.dev.table == [0, 1];
    var s2 := Step(DEMO, s1, es[5]);
    BothEnd(s2);
    hide Step, Enabled;
    RunCons(DEMO, s1, es[5], es[6..]);
    RunCons(DEMO, s, es[4], [es[5]] + es[6..]);
    assert es[4..] == [es[4]] + ([es[5]] + es[6..]);
  }

  /** That run ends with a launch of two tiles whose blocks both served tile 1. */
  lemma UnhookedBreaks()
    ensures IsRun(DEMO, Init(2, 0), UnhookedRun())
    ensures var d := Exec(DEMO, Init(2, 0), UnhookedRun()).dev; |d.records| == 1 && d.records[0].tasks == [1, 1]
  {
    hide Init, IsRun, Exec, Step, Enabled;
    UnhookedStarts();
    var es := UnhookedRun();
    UnhookedEnds(Exec(DEMO, Init(2, 0), es[..4]));
    RunJoin(DEMO, Init(2, 0), es[..4], es[4..]);
    assert es == es[..4] + es[4..];
  }
}
