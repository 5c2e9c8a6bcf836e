/**
 What the begin hook does with a batch, in terms of the step count, the configuration, the batch and
 R alone: when it plans, which of its branches it takes, and what each of them leaves.
 */
module ServingHooks {
  import opened Prelude
  import opened ProbeFold
  import opened Serving
  import opened ServingOrder
  import Remap

  /** What the hook reads at its entry. */
  datatype Inputs = Inputs(tiles: nat, r: nat, probe: bool, idle: bool)

  function InputsOf(cfg: Config, s: State, b: Batch): Inputs {
    var lookup := s.host.r == 0 && cfg.clc != Off && (s.host.step + 1) % 64 == 1;
    Inputs(if b.tileMap.Some? then |b.tileMap.value| else if b.slots.Some? then |b.slots.value| else 0,
           if lookup then b.occupancy else s.host.r,
           s.host.step % cfg.timerEvery == 0 && s.host.pending.None?,
           s.host.inflight.None? || s.dev.done >= s.host.inflight.value)
  }

  /** The step is on a cadence. */
  predicate OnCadence(cfg: Config, s: State, i: Inputs) {
    s.host.step % cfg.planEvery == 0 || i.probe
  }

  /** The batch has slots, fits the table, and its tiles can be costed. */
  predicate Costed(s: State, b: Batch, i: Inputs) {
    b.slots.Some? && i.tiles <= |s.dev.table| && (b.slots.value != [] || i.tiles == 0)
  }

  /** Claims are armed: always, or when there is a hot tail past what is resident. */
  predicate Armed(cfg: Config, b: Batch, i: Inputs) {
    !cfg.observeOnly && (cfg.clc == On || (cfg.clc == Auto && 0 < i.r < i.tiles && b.hot))
  }

  predicate OneWaveStep(cfg: Config, b: Batch, i: Inputs) {
    !cfg.observeOnly && !Armed(cfg, b, i) && 0 < i.r && i.tiles <= i.r
  }

  predicate Queued(cfg: Config, b: Batch, i: Inputs) {
    !cfg.observeOnly && !Armed(cfg, b, i) && (i.r == 0 || i.tiles > i.r)
  }

  /** The batch's order is at the front of the table, the rest stays, and the stamp is its size. */
  ghost predicate NewOrder(d: Device, d': Device, order: seq<nat>)
    requires d.done <= |d.ops| && d'.done <= |d'.ops|
  {
    var t, t' := Published(d), Published(d');
    && |order| <= |t'| == |t| && t'[..|order|] == order && t'[|order|..] == t[|order|..]
    && d'.header.stamp == |order|
  }

  ghost predicate SameOrder(d: Device, d': Device)
    requires d.done <= |d.ops| && d'.done <= |d'.ops|
  {
    Published(d') == Published(d) && d'.header.stamp == d.header.stamp
  }

  ghost predicate NoOrder(d: Device)
    requires d.done <= |d.ops|
  {
    Remap.IsIdentity(Published(d)) && d.header.stamp == 0
  }

  lemma OverlayFront(t: seq<nat>, order: seq<nat>)
    requires |order| <= |t|
    ensures Overlay(t, order)[..|order|] == order && Overlay(t, order)[|order|..] == t[|order|..]
  {
  }

  lemma InputsAgree(cfg: Config, s: State, b: Batch)
    requires b.slots.Some?
    ensures var i := InputsOf(cfg, s, b);
            && i.tiles == b.Tiles() && i.r == Deciding(cfg, s, b).r && i.probe == Probing(cfg, s.host)
            && i.idle == Idle(Deciding(cfg, s, b), s.dev)
            && Deciding(cfg, s, b).orderN == s.host.orderN
            && (Reaches(cfg, s, b) <==> OnCadence(cfg, s, i) && Costed(s, b, i))
  {
    ConsumeKeeps(s.host.(step := s.host.step + 1), s.dev);
    hide Consume;
  }

  /** Which order size a planned step records. */
  lemma PlanRecords(cfg: Config, h: Host, d: Device, b: Batch, step: nat, probe: bool)
    requires b.slots.Some?
    ensures var (h', d') := Plan(cfg, h, d, b, step, probe);
            && h'.r == h.r && h'.step == h.step
            && h'.orderN == (if Installs(cfg, h, d, b) then Some(b.Tiles())
                             else if Retires(cfg, h, b) then None else h.orderN)
  {
    hide SetOrder, ClearTimer;
  }

  /**
   A step on a cadence with a batch that can be costed takes one branch. Armed: the batch's order is
   installed and claims are on for its tiles. One wave, at most R tiles: no order is in force, and the
   table is neutral if one was. Queued, more than R or R unknown: the order is installed once the last
   batch's event has fired. Observing, or queued before that: the order stays. Claims are off unless
   armed, the timer is on exactly in a probe step, and the binding is the batch's own.
   */
  lemma BatchDecides(cfg: Config, s: State, b: Batch)
    requires Synced(cfg, s) && b.Ordered()
    requires OnCadence(cfg, s, InputsOf(cfg, s, b)) && Costed(s, b, InputsOf(cfg, s, b))
    ensures var i := InputsOf(cfg, s, b);
            var (h, d) := Begin(cfg, s.host, s.dev, b);
            && d.done <= |d.ops| && h.step == s.host.step + 1 && h.r == i.r
            && d.header.numTasks == (if Armed(cfg, b, i) then i.tiles else 0)
            && d.header.timerOff == !i.probe && h.armed == i.probe && h.mirror == d.header
            && h.binding == Some(Binding(s.host.step, b.slots.value, b.kvs, b.tileMap))
            && (Armed(cfg, b, i) || (Queued(cfg, b, i) && i.idle) ==>
                  NewOrder(s.dev, d, b.order) && h.orderN == Some(i.tiles))
            && (OneWaveStep(cfg, b, i) ==>
                  h.orderN == None && if s.host.orderN.None? then SameOrder(s.dev, d) else NoOrder(d))
            && (cfg.observeOnly || (Queued(cfg, b, i) && !i.idle) ==>
                  SameOrder(s.dev, d) && h.orderN == s.host.orderN)
  {
    InputsAgree(cfg, s, b);
    PlannedStep(cfg, s, b);
    BeginPlans(cfg, s, b);
    BeginCounts(cfg, s, b);
    PlanRecords(cfg, Deciding(cfg, s, b), s.dev, b, s.host.step, Probing(cfg, s.host));
    OverlayFront(Published(s.dev), b.order);
    OverlayIdentity(Published(s.dev));
    hide Begin, Plan, Deciding, Published, Overlay, InputsOf, Probing, Reaches;
  }

  lemma BeginCounts(cfg: Config, s: State, b: Batch)
    ensures Begin(cfg, s.host, s.dev, b).0.step == s.host.step + 1
  {
    ConsumeKeeps(s.host.(step := s.host.step + 1), s.dev);
    if Reaches(cfg, s, b) {
      BeginPlans(cfg, s, b);
      PlanRecords(cfg, Deciding(cfg, s, b), s.dev, b, s.host.step, Probing(cfg, s.host));
    } else {
      BeginExits(cfg, s, b);
    }
    hide Begin, Consume, Plan, Probing;
  }

  lemma DecideLeaves(cfg: Config, h: Host, d: Device, b: Batch)
    ensures var d' := Decide(cfg, h, d, b).1;
            d'.log == d.log && d'.all == d.all && d'.done == d.done && d'.blocks == d.blocks
  {
    hide Overlay;
  }

  lemma PlanClears(cfg: Config, h: Host, d: Device, b: Batch, step: nat, probe: bool)
    requires b.slots.Some?
    ensures var d' := Plan(cfg, h, d, b, step, probe).1;
            && (probe && cfg.timerDevice ==> d'.ops != [] && d'.ops[|d'.ops| - 1] == Clear)
            && (probe && !cfg.timerDevice ==> d'.log == [])
            && (!probe || cfg.timerDevice ==> d'.log == d.log)
            && d'.all == d.all && d'.done == d.done && d'.blocks == d.blocks
  {
    DecideLeaves(cfg, h.(armed := probe, mirror := h.mirror.(timerOff := !probe)), d, b);
    hide Decide;
  }

  /** A probe step clears the timer rows: behind the stream on the device channel, at once on the host channel. */
  lemma ProbeClears(cfg: Config, s: State, b: Batch)
    requires OnCadence(cfg, s, InputsOf(cfg, s, b)) && Costed(s, b, InputsOf(cfg, s, b))
    ensures var d := Begin(cfg, s.host, s.dev, b).1;
            && (InputsOf(cfg, s, b).probe && cfg.timerDevice ==> d.ops != [] && d.ops[|d.ops| - 1] == Clear)
            && (InputsOf(cfg, s, b).probe && !cfg.timerDevice ==> d.log == [])
            && (!InputsOf(cfg, s, b).probe || cfg.timerDevice ==> d.log == s.dev.log)
            && d.all == s.dev.all && d.done == s.dev.done && d.blocks == s.dev.blocks
  {
    InputsAgree(cfg, s, b);
    BeginPlans(cfg, s, b);
    PlanClears(cfg, Deciding(cfg, s, b), s.dev, b, s.host.step, Probing(cfg, s.host));
    hide Begin, Plan, Deciding, InputsOf, Probing, Reaches;
  }

  /**
   Any other step leaves the plane alone. Off the cadences it counts and disarms the probe flag; with
   no slots or too many tiles it only counts; with tiles but no requests it has also read out a probe
   whose event has fired and looked R up.
   */
  lemma BatchSkipped(cfg: Config, s: State, b: Batch)
    requires !(OnCadence(cfg, s, InputsOf(cfg, s, b)) && Costed(s, b, InputsOf(cfg, s, b)))
    ensures var i := InputsOf(cfg, s, b);
            var (h, d) := Begin(cfg, s.host, s.dev, b);
            var counted := s.host.(step := s.host.step + 1);
            && d == s.dev
            && (!OnCadence(cfg, s, i) ==> h == counted.(armed := false))
            && (OnCadence(cfg, s, i) && (b.slots.None? || i.tiles > |s.dev.table|) ==> h == counted)
            && (OnCadence(cfg, s, i) && b.slots.Some? && i.tiles <= |s.dev.table| ==>
                  h == counted.(pending := h.pending, folds := h.folds, r := i.r)
                  && (s.host.pending.Some? ==>
                        (h.pending.None? <==> s.dev.done >= s.host.pending.value.event)))
  {
    if b.slots.Some? { InputsAgree(cfg, s, b); }
    BeginExits(cfg, s, b);
    hide Begin, Reaches, PerRequest, Rows;
  }
}
