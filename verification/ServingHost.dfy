/**
 The host-mapped timer channel, where a probe's clear and flag land at once, under whatever is
 still running: exactly when the probe is exact nevertheless.
 */
module ServingHost {
  import opened Prelude
  import opened ProbeFold
  import opened Serving
  import opened ServingProbe
  import opened ServingRuns
  import opened ServingFolds
  import Remap

  // ------------------------------------------------------------------
  // What every run on this channel keeps.
  // ------------------------------------------------------------------

  predicate Below(order: seq<nat>, n: nat) {
    forall i :: 0 <= i < |order| ==> order[i] < n
  }

  /** Table entries are below the capacity, so exactly the blocks below it have a timer row. */
  ghost predicate Small(d: Device) {
    && Below(d.table, |d.table|)
    && (forall i :: 0 <= i < |d.ops| && d.ops[i].Copy? ==> Below(d.ops[i].order, |d.table|))
    && (forall b :: b in d.blocks ==>
          && d.done < |d.ops| && d.ops[d.done].Launch? && b < d.ops[d.done].grid
          && (d.blocks[b].task < |d.table| <==> b < |d.table|))
  }

  ghost predicate BaseInv(s: State) {
    TagsOk(s) && HostOk(s) && FoldsPast(s.host) && Small(s.dev) && ClearFree(s.dev)
  }

  lemma DecideSmall(cfg: Config, h: Host, d: Device, b: Batch)
    requires Small(d) && ClearFree(d) && b.Ordered() && b.Tiles() <= |d.table|
    ensures var d' := Decide(cfg, h, d, b).1; Small(d') && ClearFree(d')
  {
    assert Below(b.order, |d.table|);
    assert Below(Identity(|d.table|), |d.table|);
    SetSmall(cfg, d, b.order);
    SetSmall(cfg, d, Identity(|d.table|));
    hide SetOrder, Small, ClearFree;
  }

  lemma SetSmall(cfg: Config, d: Device, order: seq<nat>)
    requires Small(d) && ClearFree(d) && Below(order, |d.table|)
    ensures Small(SetOrder(cfg, d, order)) && ClearFree(SetOrder(cfg, d, order))
  {
  }

  lemma BeginSmall(cfg: Config, s: State, b: Batch)
    requires !cfg.timerDevice && Small(s.dev) && ClearFree(s.dev) && b.Ordered()
    ensures var d := Begin(cfg, s.host, s.dev, b).1; Small(d) && ClearFree(d)
  {
    if Reaches(cfg, s, b) {
      BeginPlans(cfg, s, b);
      var h := Deciding(cfg, s, b);
      var h1 := h.(armed := Probing(cfg, s.host), mirror := h.mirror.(timerOff := !Probing(cfg, s.host)));
      DecideSmall(cfg, h1, s.dev, b);
      hide Begin, Deciding, Decide, Probing;
    } else {
      BeginExits(cfg, s, b);
      hide Begin;
    }
  }

  lemma BeginBase(cfg: Config, s: State, b: Batch)
    requires !cfg.timerDevice && BaseInv(s) && Enabled(s, BatchBegin(b))
    ensures BaseInv(Step(cfg, s, BatchBegin(b)))
  {
    BeginSmall(cfg, s, b);
    BeginCore(cfg, s, b);
    hide Begin, Small, ClearFree;
  }

  lemma BaseStep(cfg: Config, s: State, e: Event)
    requires !cfg.timerDevice && BaseInv(s) && Enabled(s, e)
    ensures BaseInv(Step(cfg, s, e))
  {
    if e.BatchBegin? {
      hide Begin, BaseInv;
      BeginBase(cfg, s, e.batch);
    } else if e.BatchEnd? || e.Enqueue? {
    } else {
      DeviceBase(cfg, s, e);
    }
  }

  lemma DeviceBase(cfg: Config, s: State, e: Event)
    requires BaseInv(s) && Enabled(s, e) && OnDevice(e)
    ensures BaseInv(Step(cfg, s, e))
  {
  }

  lemma {:induction false} BaseRun(cfg: Config, s: State, es: seq<Event>)
    requires !cfg.timerDevice && BaseInv(s) && IsRun(cfg, s, es)
    ensures BaseInv(Exec(cfg, s, es))
    decreases |es|
  {
    hide Step, Enabled, BaseInv;
    if es != [] {
      BaseStep(cfg, s, es[0]);
      BaseRun(cfg, Step(cfg, s, es[0]), es[1..]);
    }
  }

  lemma InitBase(capacity: nat, r: nat)
    ensures BaseInv(Init(capacity, r))
  {
  }

  // ------------------------------------------------------------------
  // A probe over a stream in which no earlier launch can add a sample.
  // ------------------------------------------------------------------

  /** Block b of the launch at position i has a timer row, and has yet to start or runs with the flag latched on. */
  predicate CanSampleAt(d: Device, i: nat, b: nat) {
    && d.done <= i < |d.ops| && d.ops[i].Launch? && b < d.ops[i].grid && b < |d.table|
    && (i > d.done || b !in d.blocks || (d.blocks[b].Running? && d.blocks[b].on))
  }

  ghost predicate CanSample(d: Device) {
    exists i: nat, b: nat :: CanSampleAt(d, i, b)
  }

  ghost predicate SpentBefore(d: Device, limit: nat) {
    forall i: nat, b: nat :: i < limit ==> !CanSampleAt(d, i, b)
  }

  /** While the probe of this step is live, the rows are its samples. */
  ghost predicate Exact(s: State, step: nat) {
    var h, d := s.host, s.dev;
    && step < h.step && d.clearAt <= |d.ops| && SpentBefore(d, d.clearAt)
    && (forall i :: 0 <= i < d.clearAt ==> !Tagged(d.ops[i], step))
    && (!h.mirror.timerOff ==>
          && s.current == Some(step) && h.pending.None?
          && forall i :: d.clearAt <= i < |d.ops| && d.ops[i].Launch? ==> Tagged(d.ops[i], step))
    && (h.pending.Some? ==>
          && d.clearAt <= h.pending.value.event
          && forall i :: h.pending.value.event <= i < |d.ops| ==> !Tagged(d.ops[i], step))
    && (h.pending.Some? && s.current.Some? ==> s.current.value > step)
    && d.log == Only(d.all, step)
    && (d.done >= d.clearAt ==>
          forall b :: b in d.blocks && d.blocks[b].Running? && d.blocks[b].on ==>
            d.done < |d.ops| && Tagged(d.ops[d.done], step))
  }

  ghost predicate CleanInv(s: State, step: nat) {
    && step < s.host.step
    && (forall k :: 0 <= k < |s.host.folds| && s.host.folds[k].binding.step == step ==> FoldOk(s, s.host.folds[k]))
    && (Live(s.host) == Some(step) ==> Exact(s, step))
  }

  /** Device steps give no block of the stream another chance to sample. */
  lemma NoNewChance(cfg: Config, s: State, e: Event, i: nat, b: nat)
    requires Enabled(s, e) && OnDevice(e) && CanSampleAt(Step(cfg, s, e).dev, i, b)
    ensures CanSampleAt(s.dev, i, b)
  {
  }

  lemma SpentStays(cfg: Config, s: State, e: Event, limit: nat)
    requires Enabled(s, e) && OnDevice(e) && SpentBefore(s.dev, limit)
    ensures SpentBefore(Step(cfg, s, e).dev, limit)
  {
    forall i: nat, b: nat | i < limit && CanSampleAt(Step(cfg, s, e).dev, i, b) ensures CanSampleAt(s.dev, i, b) {
      NoNewChance(cfg, s, e, i, b);
    }
  }

  lemma FinishExact(cfg: Config, s: State, block: nat, cycles: nat, step: nat)
    requires BaseInv(s) && Exact(s, step) && Enabled(s, FinishBlock(block, cycles))
    ensures Exact(Step(cfg, s, FinishBlock(block, cycles)), step)
  {
    var d := s.dev;
    var x := Sample(d.ops[d.done].step, d.blocks[block].task, cycles);
    SpentStays(cfg, s, FinishBlock(block, cycles), d.clearAt);
    OnlyAppend(d.all, x, step);
    assert d.all + [] == d.all && d.log + [] == d.log;
    if d.done < d.clearAt && d.blocks[block].on {
      assert !CanSampleAt(d, d.done, block);
    }
    hide SpentBefore, Only;
  }

  lemma DeviceExact(cfg: Config, s: State, e: Event, step: nat)
    requires BaseInv(s) && Exact(s, step) && Enabled(s, e) && OnDevice(e)
    ensures Exact(Step(cfg, s, e), step)
  {
    if e.FinishBlock? {
      FinishExact(cfg, s, e.block, e.cycles, step);
    } else {
      SpentStays(cfg, s, e, s.dev.clearAt);
      hide SpentBefore, Only;
    }
  }

  lemma DeviceClean(cfg: Config, s: State, e: Event, step: nat)
    requires BaseInv(s) && CleanInv(s, step) && Enabled(s, e) && OnDevice(e)
    ensures CleanInv(Step(cfg, s, e), step)
  {
    var s' := Step(cfg, s, e);
    assert s'.host == s.host;
    if Live(s.host) == Some(step) { DeviceExact(cfg, s, e, step); }
    forall k | 0 <= k < |s.host.folds| && s.host.folds[k].binding.step == step ensures FoldOk(s', s.host.folds[k]) {
      DeviceFold(cfg, s, e, s.host.folds[k]);
    }
    hide FoldOk, Exact, Step, Enabled, BaseInv;
  }

  lemma EnqueueClean(cfg: Config, s: State, grid: nat, step: nat)
    requires BaseInv(s) && CleanInv(s, step)
    ensures CleanInv(Step(cfg, s, Enqueue(grid)), step)
  {
    var s' := Step(cfg, s, Enqueue(grid));
    if Live(s.host) == Some(step) { EnqueueExact(cfg, s, grid, step); }
    forall k | 0 <= k < |s.host.folds| && s.host.folds[k].binding.step == step ensures FoldOk(s', s.host.folds[k]) {
      EnqueueFold(cfg, s, grid, s.host.folds[k]);
    }
    hide FoldOk, Exact, BaseInv;
  }

  lemma EnqueueExact(cfg: Config, s: State, grid: nat, step: nat)
    requires BaseInv(s) && Exact(s, step)
    ensures Exact(Step(cfg, s, Enqueue(grid)), step)
  {
    var d, d' := s.dev, Step(cfg, s, Enqueue(grid)).dev;
    forall i: nat, b: nat | i < d.clearAt ensures CanSampleAt(d', i, b) ==> CanSampleAt(d, i, b) {
    }
    hide Only;
  }

  lemma EndClean(cfg: Config, s: State, step: nat)
    requires BaseInv(s) && CleanInv(s, step) && Enabled(s, BatchEnd)
    ensures CleanInv(Step(cfg, s, BatchEnd), step)
  {
    var s' := Step(cfg, s, BatchEnd);
    hide Only, PerRequest, Rows, SpentBefore;
    assert SpentBefore(s'.dev, s'.dev.clearAt) == SpentBefore(s.dev.(header := s'.dev.header), s.dev.clearAt);
    SpentHeader(s.dev, s'.dev.header, s.dev.clearAt);
    forall k | 0 <= k < |s.host.folds| && s.host.folds[k].binding.step == step ensures FoldOk(s', s.host.folds[k]) {
      assert FoldOk(s, s.host.folds[k]);
    }
  }

  lemma SpentHeader(d: Device, header: Header, limit: nat)
    ensures SpentBefore(d.(header := header), limit) <==> SpentBefore(d, limit)
  {
    forall i: nat, b: nat ensures CanSampleAt(d.(header := header), i, b) == CanSampleAt(d, i, b) {
    }
  }

  /** Consuming a fired probe of this step folds exactly its samples. */
  lemma CleanDecides(cfg: Config, s: State, b: Batch, step: nat)
    requires BaseInv(s) && CleanInv(s, step) && s.current.None?
    ensures CleanInv(State(Deciding(cfg, s, b), s.dev, Some(s.host.step)), step)
  {
    var h := Deciding(cfg, s, b);
    var s1 := State(h, s.dev, Some(s.host.step));
    hide Only, PerRequest, Rows, SpentBefore;
    forall k | 0 <= k < |h.folds| && h.folds[k].binding.step == step ensures FoldOk(s1, h.folds[k]) {
      if k < |s.host.folds| { assert FoldOk(s, s.host.folds[k]); }
    }
  }

  lemma CleanCounts(s: State, step: nat)
    requires BaseInv(s) && CleanInv(s, step) && s.current.None?
    ensures CleanInv(Begun(s), step) && CleanInv(Begun(s).(host := Begun(s).host.(armed := false)), step)
  {
    var off := Begun(s).(host := Begun(s).host.(armed := false));
    hide Only, PerRequest, Rows, SpentBefore;
    forall k | 0 <= k < |s.host.folds| && s.host.folds[k].binding.step == step
      ensures FoldOk(Begun(s), s.host.folds[k]) && FoldOk(off, s.host.folds[k])
    {
      assert FoldOk(s, s.host.folds[k]);
    }
  }

  lemma SpentUnderCopies(d: Device, d': Device, limit: nat)
    requires limit <= |d.ops| <= |d'.ops| && d'.done == d.done && d'.blocks == d.blocks && |d'.table| == |d.table|
    requires forall i :: 0 <= i < |d.ops| ==> d'.ops[i] == d.ops[i]
    requires SpentBefore(d, limit)
    ensures SpentBefore(d', limit)
  {
    forall i: nat, b: nat | i < limit ensures CanSampleAt(d', i, b) ==> CanSampleAt(d, i, b) {
    }
  }

  /** The rest of a planned step, for a probe that is not this one. */
  lemma CleanArms(cfg: Config, s: State, h: Host, d: Device, probe: bool, bound: Binding, step: nat)
    requires !cfg.timerDevice && CleanInv(s, step) && s.dev.done <= |s.dev.ops| && step < bound.step
    requires s.current == Some(bound.step) && (probe ==> s.host.pending.None?)
    requires Untouched(s.host.(armed := probe, mirror := s.host.mirror.(timerOff := !probe)), s.dev, h, d)
    ensures var (h', d') := Armed(cfg, h, d, probe, bound); CleanInv(State(h', d', s.current), step)
  {
    var (h', d') := Armed(cfg, h, d, probe, bound);
    var s' := State(h', d', s.current);
    hide Only, PerRequest, Rows, SpentBefore;
    if Live(h') == Some(step) {
      assert !probe && Live(s.host) == Some(step);
      SpentUnderCopies(s.dev, d', s.dev.clearAt);
    }
    forall k | 0 <= k < |h'.folds| && h'.folds[k].binding.step == step ensures FoldOk(s', h'.folds[k]) {
      assert FoldOk(s, s.host.folds[k]);
    }
  }

  lemma BeginClean(cfg: Config, s: State, b: Batch, step: nat)
    requires !cfg.timerDevice && BaseInv(s) && CleanInv(s, step) && Enabled(s, BatchBegin(b))
    ensures CleanInv(Step(cfg, s, BatchBegin(b)), step)
  {
    CleanDecides(cfg, s, b, step);
    if Reaches(cfg, s, b) {
      BeginPlans(cfg, s, b);
      assert b.slots.Some? && step < s.host.step && s.dev.done <= |s.dev.ops|;
      var h, probe := Deciding(cfg, s, b), Probing(cfg, s.host);
      assert probe ==> h.pending.None?;
      hide CleanInv, BaseInv, Begin, Plan, Deciding, Reaches, Probing, Armed, Untouched;
      var h2, d2 := PlanIsArmed(cfg, h, s.dev, b, s.host.step, probe);
      CleanArms(cfg, State(h, s.dev, Some(s.host.step)), h2, d2, probe,
                Binding(s.host.step, b.slots.value, b.kvs, b.tileMap), step);
    } else {
      BeginExits(cfg, s, b);
      CleanCounts(s, step);
      hide CleanInv, BaseInv, Begin, Reaches, Deciding;
    }
  }

  lemma CleanStep(cfg: Config, s: State, e: Event, step: nat)
    requires !cfg.timerDevice && BaseInv(s) && CleanInv(s, step) && Enabled(s, e)
    ensures CleanInv(Step(cfg, s, e), step)
  {
    hide BaseInv, CleanInv, Step, Enabled;
    match e
    case BatchBegin(b) => BeginClean(cfg, s, b, step);
    case Enqueue(grid) => EnqueueClean(cfg, s, grid, step);
    case BatchEnd => EndClean(cfg, s, step);
    case _ => DeviceClean(cfg, s, e, step);
  }

  lemma {:induction false} CleanRun(cfg: Config, s: State, es: seq<Event>, step: nat)
    requires !cfg.timerDevice && BaseInv(s) && CleanInv(s, step) && IsRun(cfg, s, es)
    ensures CleanInv(Exec(cfg, s, es), step)
    decreases |es|
  {
    hide BaseInv, CleanInv, Step, Enabled;
    if es != [] {
      BaseStep(cfg, s, es[0]);
      CleanStep(cfg, s, es[0], step);
      CleanRun(cfg, Step(cfg, s, es[0]), es[1..], step);
    }
  }

  /** What a probing step leaves behind on this channel. */
  lemma ProbeBegins(cfg: Config, s: State, b: Batch)
    requires !cfg.timerDevice && BaseInv(s) && s.current.None? && Probing(cfg, s.host) && Reaches(cfg, s, b)
    ensures var (h, d) := Begin(cfg, s.host, s.dev, b);
            && h.armed && h.pending.None? && h.binding.Some? && h.binding.value.step == s.host.step
            && h.step == s.host.step + 1 && h.folds == s.host.folds && h.mirror == d.header
            && !d.header.timerOff && d.log == [] && d.all == s.dev.all && |d.table| == |s.dev.table|
            && d.done == s.dev.done && d.blocks == s.dev.blocks && |s.dev.ops| <= |d.ops| == d.clearAt
            && (forall i :: 0 <= i < |s.dev.ops| ==> d.ops[i] == s.dev.ops[i])
            && (forall i :: |s.dev.ops| <= i < |d.ops| ==> d.ops[i].Copy?)
  {
    BeginPlans(cfg, s, b);
    assert s.host.pending.None?;
    var h := Deciding(cfg, s, b);
    assert h.pending.None? && h.folds == s.host.folds && h.step == s.host.step + 1;
    assert b.slots.Some?;
    hide Begin, Plan, Deciding, BaseInv, Reaches;
    var h2, d2 := PlanIsArmed(cfg, h, s.dev, b, s.host.step, true);
  }

  lemma CleanStarts(cfg: Config, s: State, b: Batch)
    requires !cfg.timerDevice && BaseInv(s) && Enabled(s, BatchBegin(b))
    requires Probing(cfg, s.host) && Reaches(cfg, s, b) && !CanSample(s.dev)
    ensures CleanInv(Step(cfg, s, BatchBegin(b)), s.host.step)
  {
    ProbeBegins(cfg, s, b);
    hide Begin, Probing, Reaches;
    var s1 := Step(cfg, s, BatchBegin(b));
    OnlyNone(s.dev.all, s.host.step);
    forall i: nat, c: nat ensures CanSampleAt(s1.dev, i, c) ==> CanSampleAt(s.dev, i, c) {
    }
    assert SpentBefore(s1.dev, s1.dev.clearAt);
    hide SpentBefore, CanSample, Only;
  }

  // ------------------------------------------------------------------
  // Otherwise some continuation folds a foreign sample.
  // ------------------------------------------------------------------

  predicate Foreign(log: seq<Sample>, step: nat) {
    exists k :: 0 <= k < |log| && log[k].step != Some(step)
  }

  lemma {:induction false} OnlyIsOwn(log: seq<Sample>, step: nat)
    ensures !Foreign(Only(log, step), step)
  {
    if log != [] { OnlyIsOwn(log[..|log| - 1], step); }
  }

  lemma ForeignStays(log: seq<Sample>, more: seq<Sample>, step: nat)
    requires Foreign(log, step) && log <= more
    ensures Foreign(more, step)
  {
    var k :| 0 <= k < |log| && log[k].step != Some(step);
    assert more[k] == log[k];
  }

  /** A block that can sample, at the head and with the flag on, does so. */
  lemma SampleHead(cfg: Config, s: State, b: nat) returns (es: seq<Event>)
    requires BaseInv(s) && CanSampleAt(s.dev, s.dev.done, b) && !s.dev.header.timerOff
    ensures IsRun(cfg, s, es)
    ensures var t := Exec(cfg, s, es);
            && Advanced(s, t) && HeadOk(t.dev) && t.dev.log != []
            && t.dev.log[|t.dev.log| - 1].step == s.dev.ops[s.dev.done].step
  {
    if b in s.dev.blocks {
      es := [FinishBlock(b, 1)];
      RunOne(cfg, s, es[0]);
      DeviceAdvances(cfg, s, es[0]);
    } else {
      es := [StartBlock(b), FinishBlock(b, 1)];
      var t := Step(cfg, s, es[0]);
      DeviceAdvances(cfg, s, es[0]);
      DeviceAdvances(cfg, t, es[1]);
      RunOne(cfg, t, es[1]);
      RunCons(cfg, s, es[0], [es[1]]);
      AdvancesThrough(s, t, Step(cfg, t, es[1]));
      assert es == [es[0]] + [es[1]];
    }
  }

  /** An earlier launch that can sample is brought to the head and does so. */
  lemma SampleEarly(cfg: Config, s: State, i: nat, b: nat) returns (es: seq<Event>)
    requires !cfg.timerDevice && BaseInv(s) && CanSampleAt(s.dev, i, b) && !s.dev.header.timerOff
    ensures IsRun(cfg, s, es)
    ensures var t := Exec(cfg, s, es);
            && Advanced(s, t) && HeadOk(t.dev) && t.dev.log != []
            && t.dev.log[|t.dev.log| - 1].step == s.dev.ops[i].step
  {
    hide IsRun, Exec;
    var first := DrainTo(cfg, s, i);
    var t := Exec(cfg, s, first);
    BaseRun(cfg, s, first);
    if i == s.dev.done {
      es := SampleHead(cfg, s, b);
    } else {
      assert CanSampleAt(t.dev, t.dev.done, b);
      hide BaseInv, CanSampleAt;
      var rest := SampleHead(cfg, t, b);
      RunJoin(cfg, s, first, rest);
      AdvancesThrough(s, t, Exec(cfg, t, rest));
      es := first + rest;
    }
  }

  /** Every fold of that step holds exactly its samples. */
  ghost predicate FoldsExact(s: State, step: nat) {
    forall k :: 0 <= k < |s.host.folds| && s.host.folds[k].binding.step == step ==>
      s.host.folds[k].log == Only(s.dev.all, step)
  }

  lemma PollutedFold(cfg: Config, s: State, b: Batch) returns (es: seq<Event>)
    requires !cfg.timerDevice && BaseInv(s) && Enabled(s, BatchBegin(b))
    requires Probing(cfg, s.host) && Reaches(cfg, s, b) && CanSample(s.dev)
    ensures var s1 := Step(cfg, s, BatchBegin(b));
            IsRun(cfg, s1, es) && !FoldsExact(Exec(cfg, s1, es), s.host.step)
  {
    var step := s.host.step;
    var i: nat, c: nat :| CanSampleAt(s.dev, i, c);
    ProbeBegins(cfg, s, b);
    BaseStep(cfg, s, BatchBegin(b));
    assert s.dev.ops[i].step != Some(step);
    hide Begin, Probing, Reaches, CanSample;
    var s1 := Step(cfg, s, BatchBegin(b));
    assert CanSampleAt(s1.dev, i, c) && ClearFree(s1.dev);
    hide BaseInv, CanSampleAt;
    var first := SampleEarly(cfg, s1, i, c);
    var s2 := Exec(cfg, s1, first);
    assert Foreign(s2.dev.log, step);
    assert s2.host == s1.host && s2.current == s1.current && ClearFree(s2.dev);
    var rest := EndsInFold(cfg, s2);
    RunJoin(cfg, s1, first, rest);
    es := first + rest;
    var t := Exec(cfg, s1, es);
    ForeignStays(s2.dev.log, t.host.folds[|s2.host.folds|].log, step);
    OnlyIsOwn(t.dev.all, step);
  }

  /**
   On the host-mapped channel, in any reachable state in which a probe is about to begin: every fold
   of that probe, in every continuation, holds exactly its own step's samples, if and only if no
   launch left in the stream has a block with a timer row that has yet to start or runs with the
   flag latched on.
   */
  lemma HostProbeExactIff(cfg: Config, capacity: nat, r: nat, run: seq<Event>, b: Batch)
    requires !cfg.timerDevice && IsRun(cfg, Init(capacity, r), run)
    requires Enabled(Exec(cfg, Init(capacity, r), run), BatchBegin(b))
    requires var s := Exec(cfg, Init(capacity, r), run); Probing(cfg, s.host) && Reaches(cfg, s, b)
    ensures var s := Exec(cfg, Init(capacity, r), run);
            var s1 := Step(cfg, s, BatchBegin(b));
            (forall es :: IsRun(cfg, s1, es) ==> FoldsExact(Exec(cfg, s1, es), s.host.step)) <==> !CanSample(s.dev)
  {
    InitBase(capacity, r);
    BaseRun(cfg, Init(capacity, r), run);
    hide BaseInv, Init, Probing, Reaches, CanSample;
    var s := Exec(cfg, Init(capacity, r), run);
    var s1 := Step(cfg, s, BatchBegin(b));
    if CanSample(s.dev) {
      var es := PollutedFold(cfg, s, b);
    } else {
      CleanStarts(cfg, s, b);
      BaseStep(cfg, s, BatchBegin(b));
      hide Step, Enabled;
      forall es | IsRun(cfg, s1, es) ensures FoldsExact(Exec(cfg, s1, es), s.host.step) {
        CleanRun(cfg, s1, es, s.host.step);
      }
    }
  }
}
