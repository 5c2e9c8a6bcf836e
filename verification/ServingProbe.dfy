/**
 The observation protocol, on the device channel: what a probe folds is what its own step's
 launches measured, nothing else and nothing less, under that step's binding.
 */
module ServingProbe {
  import opened Prelude
  import opened ProbeFold
  import opened Serving

  /** The samples of one step's launches, in the order they were added. */
  function Only(log: seq<Sample>, step: nat): seq<Sample> {
    if log == [] then []
    else
      var x := log[|log| - 1];
      Only(log[..|log| - 1], step) + if x.step == Some(step) then [x] else []
  }

  lemma OnlyAppend(log: seq<Sample>, x: Sample, step: nat)
    ensures Only(log + [x], step) == Only(log, step) + if x.step == Some(step) then [x] else []
  {
    assert (log + [x])[..|log|] == log;
  }

  lemma {:induction false} OnlyNone(log: seq<Sample>, step: nat)
    requires forall k :: 0 <= k < |log| ==> log[k].step != Some(step)
    ensures Only(log, step) == []
  {
    if log != [] { OnlyNone(log[..|log| - 1], step); }
  }

  predicate Tagged(op: Op, step: nat) {
    op.Launch? && op.step == Some(step)
  }

  /** The step whose probe is armed or pending. */
  function Live(h: Host): Option<nat> {
    if h.pending.Some? then
      if h.pending.value.binding.Some? then Some(h.pending.value.binding.value.step) else None
    else if h.armed && h.binding.Some? then Some(h.binding.value.step)
    else None
  }

  /** Tags are of steps that have begun; the running batch is the last of them. */
  ghost predicate TagsOk(s: State) {
    && s.dev.done <= |s.dev.ops|
    && (s.current.Some? ==> s.current.value + 1 == s.host.step)
    && (forall i :: 0 <= i < |s.dev.ops| && s.dev.ops[i].Launch? && s.dev.ops[i].step.Some? ==>
          s.dev.ops[i].step.value < s.host.step)
    && (forall k :: 0 <= k < |s.dev.all| && s.dev.all[k].step.Some? ==> s.dev.all[k].step.value < s.host.step)
    && (s.dev.blocks != map[] ==> s.dev.done < |s.dev.ops| && s.dev.ops[s.dev.done].Launch?)
  }

  /** At most one probe: outside a batch an armed probe is pending, and it has a binding. */
  ghost predicate HostOk(s: State) {
    var h := s.host;
    && h.mirror == s.dev.header
    && (h.armed ==> h.binding.Some? && (s.current.None? ==> h.pending.Some?))
    && (h.binding.Some? ==> h.binding.value.step < h.step)
    && (h.pending.Some? ==> h.pending.value.binding.Some? && h.pending.value.binding.value.step < h.step)
    && (h.armed && h.pending.Some? ==> h.pending.value.binding == h.binding)
    && (h.pending.Some? ==> h.mirror.timerOff && h.pending.value.event <= |s.dev.ops|)
  }

  /** Where the live probe's clear and launches are in the stream. */
  ghost predicate StreamOk(s: State, step: nat) {
    var h, d := s.host, s.dev;
    && step < h.step
    && d.clearAt < |d.ops| && d.ops[d.clearAt].Clear?
    && (forall i :: d.clearAt < i < |d.ops| ==> !d.ops[i].Clear?)
    && (forall i :: 0 <= i < d.clearAt ==> !Tagged(d.ops[i], step))
    && (!h.mirror.timerOff ==>
          && s.current == Some(step) && h.pending.None?
          && forall i :: d.clearAt < i < |d.ops| && d.ops[i].Launch? ==> Tagged(d.ops[i], step))
    && (h.pending.Some? ==>
          && d.clearAt < h.pending.value.event
          && forall i :: h.pending.value.event <= i < |d.ops| ==> !Tagged(d.ops[i], step))
    && (h.pending.Some? && s.current.Some? ==> s.current.value > step)
  }

  /** What the rows hold while a probe is live. */
  ghost predicate RowsOk(s: State, step: nat) {
    var d := s.dev;
    && (d.done <= d.clearAt ==> Only(d.all, step) == [])
    && (d.done > d.clearAt ==> d.log == Only(d.all, step))
    && (d.done > d.clearAt ==>
          forall b :: b in d.blocks && d.blocks[b].Running? && d.blocks[b].on ==>
            d.done < |d.ops| && Tagged(d.ops[d.done], step))
  }

  /** A fold holds every sample of its step there is or will be. */
  ghost predicate FoldOk(s: State, f: Fold) {
    && f.binding.step + 1 < s.host.step
    && (forall i :: s.dev.done <= i < |s.dev.ops| ==> !Tagged(s.dev.ops[i], f.binding.step))
    && f.log == Only(s.dev.all, f.binding.step)
    && f.perRequest == PerRequest(|f.binding.slots|, f.binding.tileMap, Rows(f.log, |s.dev.table|))
  }

  ghost predicate FoldsOk(s: State) {
    forall k :: 0 <= k < |s.host.folds| ==> FoldOk(s, s.host.folds[k])
  }

  ghost predicate ProbeInv(s: State) {
    && TagsOk(s) && HostOk(s) && FoldsOk(s)
    && (Live(s.host).Some? ==> StreamOk(s, Live(s.host).value) && RowsOk(s, Live(s.host).value))
  }

  lemma InitProbe(capacity: nat, r: nat)
    ensures ProbeInv(Init(capacity, r))
  {
  }

  // ------------------------------------------------------------------
  // Device steps.
  // ------------------------------------------------------------------

  predicate OnDevice(e: Event) {
    e.StartBlock? || e.FinishBlock? || e.Complete? || e.Perform?
  }

  lemma FinishRows(cfg: Config, s: State, block: nat, cycles: nat, step: nat)
    requires Enabled(s, FinishBlock(block, cycles)) && StreamOk(s, step) && RowsOk(s, step)
    ensures RowsOk(Step(cfg, s, FinishBlock(block, cycles)), step)
  {
    var d := s.dev;
    var x := Sample(d.ops[d.done].step, d.blocks[block].task, cycles);
    OnlyAppend(d.all, x, step);
    assert d.all + [] == d.all && d.log + [] == d.log;
  }

  lemma DeviceRows(cfg: Config, s: State, e: Event, step: nat)
    requires Enabled(s, e) && OnDevice(e) && TagsOk(s) && StreamOk(s, step) && RowsOk(s, step)
    requires s.host.mirror == s.dev.header
    ensures RowsOk(Step(cfg, s, e), step)
  {
    if e.FinishBlock? {
      FinishRows(cfg, s, e.block, e.cycles, step);
    } else {
      hide Only;
      assert forall k :: 0 <= k < |s.dev.all| ==> Step(cfg, s, e).dev.all[k] == s.dev.all[k];
    }
  }

  lemma DeviceFold(cfg: Config, s: State, e: Event, f: Fold)
    requires Enabled(s, e) && OnDevice(e) && TagsOk(s) && FoldOk(s, f)
    ensures FoldOk(Step(cfg, s, e), f)
  {
    var d := s.dev;
    hide PerRequest, Rows;
    if e.FinishBlock? {
      var x := Sample(d.ops[d.done].step, d.blocks[e.block].task, e.cycles);
      assert !Tagged(d.ops[d.done], f.binding.step);
      OnlyAppend(d.all, x, f.binding.step);
      assert d.all + [] == d.all;
    }
  }

  /** The host, the stream and the tags are not what a device step changes. */
  lemma DeviceFrame(cfg: Config, s: State, e: Event)
    requires Enabled(s, e) && OnDevice(e) && TagsOk(s) && HostOk(s)
    ensures var s' := Step(cfg, s, e);
            && TagsOk(s') && HostOk(s') && s'.host == s.host && s'.current == s.current
            && (Live(s.host).Some? && StreamOk(s, Live(s.host).value) ==> StreamOk(s', Live(s.host).value))
  {
  }

  lemma DeviceStep(cfg: Config, s: State, e: Event)
    requires Enabled(s, e) && OnDevice(e) && ProbeInv(s)
    ensures ProbeInv(Step(cfg, s, e))
  {
    DeviceFrame(cfg, s, e);
    hide Step, Enabled, FoldOk, RowsOk, StreamOk, TagsOk, HostOk;
    var s' := Step(cfg, s, e);
    forall k | 0 <= k < |s'.host.folds| ensures FoldOk(s', s'.host.folds[k]) {
      DeviceFold(cfg, s, e, s.host.folds[k]);
    }
    if Live(s.host).Some? {
      DeviceRows(cfg, s, e, Live(s.host).value);
    }
  }

  // ------------------------------------------------------------------
  // Host steps.
  // ------------------------------------------------------------------

  lemma EnqueueStream(cfg: Config, s: State, grid: nat, step: nat)
    requires TagsOk(s) && StreamOk(s, step) && RowsOk(s, step)
    ensures StreamOk(Step(cfg, s, Enqueue(grid)), step) && RowsOk(Step(cfg, s, Enqueue(grid)), step)
  {
    hide Only;
  }

  lemma EnqueueFold(cfg: Config, s: State, grid: nat, f: Fold)
    requires TagsOk(s) && FoldOk(s, f)
    ensures FoldOk(Step(cfg, s, Enqueue(grid)), f)
  {
    hide PerRequest, Rows, Only;
  }

  lemma EnqueueStep(cfg: Config, s: State, grid: nat)
    requires ProbeInv(s)
    ensures ProbeInv(Step(cfg, s, Enqueue(grid)))
  {
    var s' := Step(cfg, s, Enqueue(grid));
    hide FoldOk, StreamOk, RowsOk;
    forall k | 0 <= k < |s'.host.folds| ensures FoldOk(s', s'.host.folds[k]) {
      EnqueueFold(cfg, s, grid, s.host.folds[k]);
    }
    if Live(s.host).Some? {
      EnqueueStream(cfg, s, grid, Live(s.host).value);
    }
  }

  lemma EndStep(cfg: Config, s: State)
    requires ProbeInv(s) && Enabled(s, BatchEnd)
    ensures ProbeInv(Step(cfg, s, BatchEnd))
  {
    var s' := Step(cfg, s, BatchEnd);
    hide PerRequest, Rows, Only;
    forall k | 0 <= k < |s'.host.folds| ensures FoldOk(s', s'.host.folds[k]) {
      assert FoldOk(s, s.host.folds[k]);
    }
  }

  /** A batch has begun, and the hook has done no more than count it. */
  function Begun(s: State): State {
    s.(host := s.host.(step := s.host.step + 1), current := Some(s.host.step))
  }

  lemma BegunStep(s: State)
    requires ProbeInv(s) && s.current.None?
    ensures ProbeInv(Begun(s))
    ensures ProbeInv(Begun(s).(host := Begun(s).host.(armed := false)))
  {
    hide PerRequest, Rows, Only;
    forall k | 0 <= k < |s.host.folds|
      ensures FoldOk(Begun(s), s.host.folds[k])
      ensures FoldOk(Begun(s).(host := Begun(s).host.(armed := false)), s.host.folds[k])
    {
      assert FoldOk(s, s.host.folds[k]);
    }
  }

  /** The fold takes in exactly the samples of the pending step. */
  lemma ConsumeStep(cfg: Config, s: State, occupancy: nat)
    requires ProbeInv(s) && s.current.Some?
    ensures ProbeInv(s.(host := ResolveR(cfg, Consume(s.host, s.dev), occupancy)))
  {
    var h, d := s.host, s.dev;
    var s' := s.(host := ResolveR(cfg, Consume(h, d), occupancy));
    hide PerRequest, Rows, Only;
    forall k | 0 <= k < |s'.host.folds| ensures FoldOk(s', s'.host.folds[k]) {
      if k < |h.folds| {
        assert FoldOk(s, h.folds[k]);
      }
    }
  }

  /** What the decision leaves alone. */
  ghost predicate Untouched(h: Host, d: Device, h': Host, d': Device) {
    && h' == h.(mirror := h.mirror.(stamp := h'.mirror.stamp, numTasks := h'.mirror.numTasks), orderN := h'.orderN)
    && |d'.table| == |d.table|
    && d' == d.(table := d'.table, ops := d'.ops)
    && |d.ops| <= |d'.ops| && (forall i :: 0 <= i < |d.ops| ==> d'.ops[i] == d.ops[i])
    && (forall i :: |d.ops| <= i < |d'.ops| ==> d'.ops[i].Copy?)
  }

  lemma DecideFrame(cfg: Config, h: Host, d: Device, b: Batch)
    ensures var (h', d') := Decide(cfg, h, d, b); Untouched(h, d, h', d')
  {
  }

  /** Timer flag, push, clear and binding, over whatever was decided. */
  function Armed(cfg: Config, h: Host, d: Device, probe: bool, bound: Binding): (Host, Device) {
    var d3 := d.(header := h.mirror);
    (h.(binding := Some(bound)), if probe then ClearTimer(cfg, d3) else d3)
  }

  lemma ArmedStep(cfg: Config, s: State, h: Host, d: Device, probe: bool, bound: Binding)
    requires cfg.timerDevice && ProbeInv(s) && s.current == Some(bound.step)
    requires probe ==> Live(s.host).None? && s.host.pending.None?
    requires forall i :: 0 <= i < |s.dev.ops| ==> !Tagged(s.dev.ops[i], bound.step)
    requires forall k :: 0 <= k < |s.dev.all| ==> s.dev.all[k].step != Some(bound.step)
    requires Untouched(s.host.(armed := probe, mirror := s.host.mirror.(timerOff := !probe)), s.dev, h, d)
    ensures var (h', d') := Armed(cfg, h, d, probe, bound); ProbeInv(State(h', d', s.current))
  {
    var (h', d') := Armed(cfg, h, d, probe, bound);
    var s' := State(h', d', s.current);
    OnlyNone(s.dev.all, bound.step);
    hide PerRequest, Rows, Only;
    forall k | 0 <= k < |h'.folds| ensures FoldOk(s', h'.folds[k]) {
      assert FoldOk(s, s.host.folds[k]);
    }
  }

  lemma PlanIsArmed(cfg: Config, h: Host, d: Device, b: Batch, step: nat, probe: bool) returns (h2: Host, d2: Device)
    requires b.slots.Some?
    ensures Untouched(h.(armed := probe, mirror := h.mirror.(timerOff := !probe)), d, h2, d2)
    ensures Plan(cfg, h, d, b, step, probe)
            == Armed(cfg, h2, d2, probe, Binding(step, b.slots.value, b.kvs, b.tileMap))
  {
    var h1 := h.(armed := probe, mirror := h.mirror.(timerOff := !probe));
    if cfg.observeOnly {
      h2, d2 := h1.(mirror := h1.mirror.(numTasks := 0)), d;
    } else {
      DecideFrame(cfg, h1, d, b);
      h2, d2 := Decide(cfg, h1, d, b).0, Decide(cfg, h1, d, b).1;
    }
  }

  lemma PlanStep(cfg: Config, s: State, b: Batch, step: nat, probe: bool)
    requires cfg.timerDevice && ProbeInv(s) && s.current == Some(step) && b.slots.Some?
    requires probe ==> Live(s.host).None? && s.host.pending.None?
    requires forall i :: 0 <= i < |s.dev.ops| ==> !Tagged(s.dev.ops[i], step)
    requires forall k :: 0 <= k < |s.dev.all| ==> s.dev.all[k].step != Some(step)
    ensures var (h, d) := Plan(cfg, s.host, s.dev, b, step, probe); ProbeInv(State(h, d, s.current))
  {
    hide Untouched, Armed, Plan, ProbeInv;
    var h2, d2 := PlanIsArmed(cfg, s.host, s.dev, b, step, probe);
    ArmedStep(cfg, s, h2, d2, probe, Binding(step, b.slots.value, b.kvs, b.tileMap));
  }

  /** No launch or sample carries the number of a step that is only now beginning. */
  lemma NumberIsNew(cfg: Config, s: State, b: Batch)
    requires ProbeInv(s) && s.current.None?
    ensures forall i :: 0 <= i < |s.dev.ops| ==> !Tagged(s.dev.ops[i], s.host.step)
    ensures forall k :: 0 <= k < |s.dev.all| ==> s.dev.all[k].step != Some(s.host.step)
    ensures Probing(cfg, s.host) ==> Live(Deciding(cfg, s, b)).None? && Deciding(cfg, s, b).pending.None?
  {
    hide FoldsOk, StreamOk, RowsOk, PerRequest, Rows;
  }

  lemma BeginReaches(cfg: Config, s: State, b: Batch)
    requires cfg.timerDevice && ProbeInv(s) && Enabled(s, BatchBegin(b)) && Reaches(cfg, s, b)
    ensures ProbeInv(Step(cfg, s, BatchBegin(b)))
  {
    BegunStep(s);
    ConsumeStep(cfg, Begun(s), b.occupancy);
    NumberIsNew(cfg, s, b);
    BeginPlans(cfg, s, b);
    assert b.slots.Some?;
    hide ProbeInv, Plan, Begin, Live, Tagged, Consume, ResolveR, Reaches, Probing;
    PlanStep(cfg, State(Deciding(cfg, s, b), s.dev, Some(s.host.step)), b, s.host.step, Probing(cfg, s.host));
  }

  lemma BeginShort(cfg: Config, s: State, b: Batch)
    requires ProbeInv(s) && Enabled(s, BatchBegin(b)) && !Reaches(cfg, s, b)
    ensures ProbeInv(Step(cfg, s, BatchBegin(b)))
  {
    hide ProbeInv, Begin, Consume, ResolveR, Reaches;
    BeginExits(cfg, s, b);
    BegunStep(s);
    ConsumeStep(cfg, Begun(s), b.occupancy);
  }

  lemma BeginStep(cfg: Config, s: State, b: Batch)
    requires cfg.timerDevice && ProbeInv(s) && Enabled(s, BatchBegin(b))
    ensures ProbeInv(Step(cfg, s, BatchBegin(b)))
  {
    if Reaches(cfg, s, b) {
      BeginReaches(cfg, s, b);
    } else {
      BeginShort(cfg, s, b);
    }
  }

  lemma ProbeStep(cfg: Config, s: State, e: Event)
    requires cfg.timerDevice && ProbeInv(s) && Enabled(s, e)
    ensures ProbeInv(Step(cfg, s, e))
  {
    hide ProbeInv, Step, Enabled;
    match e
    case BatchBegin(b) => BeginStep(cfg, s, b);
    case Enqueue(grid) => EnqueueStep(cfg, s, grid);
    case BatchEnd => EndStep(cfg, s);
    case _ => DeviceStep(cfg, s, e);
  }

  lemma {:induction false} ProbeRun(cfg: Config, s: State, es: seq<Event>)
    requires cfg.timerDevice && ProbeInv(s) && IsRun(cfg, s, es)
    ensures ProbeInv(Exec(cfg, s, es))
    decreases |es|
  {
    if es != [] {
      hide ProbeInv, Step, Enabled;
      ProbeStep(cfg, s, es[0]);
      ProbeRun(cfg, Step(cfg, s, es[0]), es[1..]);
    }
  }
}
