/**
 The per-step control loop of the serving plugin, together with the stream it feeds.

 The host half runs before and after every hooked batch. The device half is an in-order
 stream: launches, copies into a device order table and clears of the timer rows take
 effect one after the other, while header pushes land at once. An event is a position in
 the stream and has fired when the stream is past it. The plane exists from the start, as
 the scheduler-init hook sees to.
 */
module Serving {
  import opened Prelude
  import opened ProbeFold
  import Remap

  type Pos = n: nat | n > 0 witness 1

  datatype Clc = Off | On | Auto

  datatype Config = Config(timerEvery: Pos, planEvery: Pos, observeOnly: bool, clc: Clc,
                           orderDevice: bool, timerDevice: bool)

  /** The header words the hooks write: order_size, num_tasks, and the timer-off flag. */
  datatype Header = Header(stamp: nat, numTasks: nat, timerOff: bool)

  /** Which requests a planned step serves, and the request of each of its tiles. */
  datatype Binding = Binding(step: nat, slots: seq<int>, kvs: seq<real>, tileMap: Option<seq<int>>)

  /** The cycles one block added to a timer row, and the hooked step that launched it. */
  datatype Sample = Sample(step: Option<nat>, row: nat, cycles: nat)

  /** One call of the estimator: a probe's rows, folded under its binding. */
  datatype Fold = Fold(binding: Binding, log: seq<Sample>, perRequest: seq<nat>)

  datatype Probe = Probe(event: nat, binding: Option<Binding>)

  datatype Host = Host(step: nat, r: nat, pending: Option<Probe>, inflight: Option<nat>,
                       orderN: Option<nat>, armed: bool, binding: Option<Binding>,
                       mirror: Header, folds: seq<Fold>)

  datatype Op = Launch(step: Option<nat>, grid: nat) | Copy(order: seq<nat>) | Clear

  /** A block reads the remap and latches the timer flag when it starts. */
  datatype Block = Running(task: nat, on: bool) | Retired(task: nat)

  /** What a finished launch served, tasks[b] being the task of block b, and the order in force when it ended. */
  datatype Record = Record(tasks: seq<nat>, table: seq<nat>, stamp: nat)

  /**
   log is what the timer rows hold, all is every sample since the start, and clearAt is where in
   the stream the rows were last cleared.
   */
  datatype Device = Device(table: seq<nat>, header: Header, log: seq<Sample>, all: seq<Sample>,
                           ops: seq<Op>, done: nat, clearAt: nat, blocks: map<nat, Block>,
                           records: seq<Record>)

  datatype State = State(host: Host, dev: Device, current: Option<nat>)

  // ------------------------------------------------------------------
  // The plane.
  // ------------------------------------------------------------------

  /** A table write covers a prefix; the tail stays. */
  function Overlay(table: seq<nat>, order: seq<nat>): (t: seq<nat>)
    ensures |t| == |table|
  {
    var m := Min(|order|, |table|);
    order[..m] + table[m..]
  }

  function SetOrder(cfg: Config, d: Device, order: seq<nat>): Device {
    if cfg.orderDevice then d.(ops := d.ops + [Copy(order)])
    else d.(table := Overlay(d.table, order))
  }

  function ClearTimer(cfg: Config, d: Device): Device {
    if cfg.timerDevice then d.(ops := d.ops + [Clear], clearAt := |d.ops|)
    else d.(log := [], clearAt := |d.ops|)
  }

  function RowSum(log: seq<Sample>, row: nat): nat {
    if log == [] then 0
    else
      var s := log[|log| - 1];
      RowSum(log[..|log| - 1], row) + if s.row == row then s.cycles else 0
  }

  /** The rows as 64-bit words. */
  function Rows(log: seq<Sample>, capacity: nat): (rows: seq<nat>)
    ensures |rows| == capacity
    ensures forall t :: 0 <= t < capacity ==> rows[t] == RowSum(log, t) % U64
  {
    seq(capacity, t requires 0 <= t => RowSum(log, t) % U64)
  }

  /** What each sample adds to row t. */
  function RowCycles(log: seq<Sample>, t: nat): (xs: seq<nat>)
    ensures |xs| == |log|
    ensures forall i :: 0 <= i < |log| ==> xs[i] == if log[i].row == t then log[i].cycles else 0
  {
    seq(|log|, i requires 0 <= i < |log| => if log[i].row == t then log[i].cycles else 0)
  }

  lemma {:induction false} RowSumIsSum(log: seq<Sample>, t: nat)
    ensures RowSum(log, t) == Sum(RowCycles(log, t))
  {
    if log != [] {
      RowSumIsSum(log[..|log| - 1], t);
      assert RowCycles(log, t)[..|log| - 1] == RowCycles(log[..|log| - 1], t);
    }
  }

  /** A timer row holds the cycles of the samples taken on it, and of no other, modulo 2^64. */
  lemma RowHolds(log: seq<Sample>, capacity: nat, t: nat)
    requires t < capacity
    ensures |Rows(log, capacity)| == capacity && Rows(log, capacity)[t] == Sum(RowCycles(log, t)) % U64
  {
    RowSumIsSum(log, t);
  }

  // ------------------------------------------------------------------
  // Before a batch.
  // ------------------------------------------------------------------

  /**
   What the hook is given: slots None when the batch has no slot indices; order is what the order
   builder returns for the step's tiles; hot says imbalance and uncertainty are both past their
   thresholds; occupancy is what a lookup of R would find.
   */
  datatype Batch = Batch(slots: Option<seq<int>>, kvs: seq<real>, tileMap: Option<seq<int>>,
                         order: seq<nat>, hot: bool, occupancy: nat)
  {
    function Requests(): nat {
      if slots.Some? then |slots.value| else 0
    }

    function Tiles(): nat {
      if tileMap.Some? then |tileMap.value| else Requests()
    }

    ghost predicate Ordered() {
      IsPerm(order, Tiles())
    }
  }

  predicate Probing(cfg: Config, h: Host) {
    h.step % cfg.timerEvery == 0 && h.pending.None?
  }

  predicate Planned(cfg: Config, h: Host) {
    h.step % cfg.planEvery == 0 || Probing(cfg, h)
  }

  /** Fold the pending probe if its event has fired. */
  function Consume(h: Host, d: Device): Host {
    if h.pending.None? || d.done < h.pending.value.event then h
    else
      var b := h.pending.value.binding;
      var h' := h.(pending := None);
      if b.None? then h'
      else
        var rows := Rows(d.log, |d.table|);
        h'.(folds := h.folds + [Fold(b.value, d.log, PerRequest(|b.value.slots|, b.value.tileMap, rows))])
  }

  function ResolveR(cfg: Config, h: Host, occupancy: nat): Host {
    if h.r != 0 || cfg.clc == Off || h.step % 64 != 1 then h else h.(r := occupancy)
  }

  /** The step cannot be costed: tiles bound to a batch of no requests. */
  predicate Unbindable(b: Batch) {
    b.Requests() == 0 && b.Tiles() > 0
  }

  predicate Arms(cfg: Config, h: Host, b: Batch) {
    cfg.clc == On || (cfg.clc == Auto && h.r > 0 && b.Tiles() > h.r && b.hot)
  }

  predicate OneWave(h: Host, b: Batch) {
    h.r > 0 && b.Tiles() <= h.r
  }

  predicate Idle(h: Host, d: Device) {
    h.inflight.None? || d.done >= h.inflight.value
  }

  function Installed(cfg: Config, h: Host, d: Device, b: Batch): (Host, Device) {
    (h.(mirror := h.mirror.(stamp := b.Tiles()), orderN := Some(b.Tiles())), SetOrder(cfg, d, b.order))
  }

  /** Arm the claim loop, retire the order of a one-wave step, or install when nothing is in flight. */
  function Decide(cfg: Config, h: Host, d: Device, b: Batch): (Host, Device) {
    if Arms(cfg, h, b) then
      var (h', d') := Installed(cfg, h, d, b);
      (h'.(mirror := h'.mirror.(numTasks := b.Tiles())), d')
    else if OneWave(h, b) then
      var (h', d') :=
        if h.orderN.None? then (h, d)
        else (h.(mirror := h.mirror.(stamp := 0), orderN := None), SetOrder(cfg, d, Identity(|d.table|)));
      (h'.(mirror := h'.mirror.(numTasks := 0)), d')
    else
      var (h', d') := if Idle(h, d) then Installed(cfg, h, d, b) else (h, d);
      (h'.(mirror := h'.mirror.(numTasks := 0)), d')
  }

  /** The rest of a planned step: arm or disarm the timer, decide, push, clear, bind. */
  function Plan(cfg: Config, h: Host, d: Device, b: Batch, step: nat, probe: bool): (Host, Device)
    requires b.slots.Some?
  {
    var h1 := h.(armed := probe, mirror := h.mirror.(timerOff := !probe));
    var (h2, d2) :=
      if cfg.observeOnly then (h1.(mirror := h1.mirror.(numTasks := 0)), d)
      else Decide(cfg, h1, d, b);
    var d3 := d2.(header := h2.mirror);
    var d4 := if probe then ClearTimer(cfg, d3) else d3;
    (h2.(binding := Some(Binding(step, b.slots.value, b.kvs, b.tileMap))), d4)
  }

  function Begin(cfg: Config, h: Host, d: Device, b: Batch): (Host, Device) {
    var step := h.step;
    var probe := Probing(cfg, h);
    var h0 := h.(step := step + 1);
    if !Planned(cfg, h) then (h0.(armed := false), d)
    else if b.slots.None? || b.Tiles() > |d.table| then (h0, d)
    else
      var h1 := ResolveR(cfg, Consume(h0, d), b.occupancy);
      if Unbindable(b) then (h1, d) else Plan(cfg, h1, d, b, step, probe)
  }

  /** After a batch: mark its completion point; a probe is now pending and the timer goes off. */
  function End(h: Host, d: Device): (Host, Device) {
    var event := |d.ops|;
    var h1 := h.(inflight := Some(event));
    if h.armed then
      var h2 := h1.(pending := Some(Probe(event, h.binding)), mirror := h.mirror.(timerOff := true));
      (h2, d.(header := h2.mirror))
    else
      (h1, d)
  }

  // ------------------------------------------------------------------
  // Runs.
  // ------------------------------------------------------------------

  datatype Event =
    | BatchBegin(batch: Batch)
    | Enqueue(grid: nat)
    | BatchEnd
    | StartBlock(block: nat)
    | FinishBlock(block: nat, cycles: nat)
    | Complete
    | Perform

  function Init(capacity: nat, r: nat): State {
    var header := Header(0, 0, false);
    State(Host(0, r, None, None, None, false, None, header, []),
          Device(Identity(capacity), header, [], [], [], 0, 0, map[], []), None)
  }

  /** Launches come from hooked batches, and from batches the hooks do not see. */
  ghost predicate Enabled(s: State, e: Event) {
    var d := s.dev;
    match e
    case BatchBegin(b) => s.current.None? && b.Ordered()
    case Enqueue(grid) => true
    case BatchEnd => s.current.Some?
    case StartBlock(b) => d.done < |d.ops| && d.ops[d.done].Launch? && b < d.ops[d.done].grid && b !in d.blocks
    case FinishBlock(b, _) => d.done < |d.ops| && d.ops[d.done].Launch? && b in d.blocks && d.blocks[b].Running?
    case Complete =>
      && d.done < |d.ops| && d.ops[d.done].Launch?
      && forall b :: 0 <= b < d.ops[d.done].grid ==> b in d.blocks && d.blocks[b].Retired?
    case Perform => d.done < |d.ops| && !d.ops[d.done].Launch?
  }

  function StepDevice(d: Device, e: Event): Device
    requires d.done < |d.ops|
    requires e.StartBlock? || e.FinishBlock? || e.Complete? ==> d.ops[d.done].Launch?
    requires e.FinishBlock? ==> e.block in d.blocks && d.blocks[e.block].Running?
    requires e.Complete? ==> forall b :: 0 <= b < d.ops[d.done].grid ==> b in d.blocks
    requires e.StartBlock? || e.FinishBlock? || e.Complete? || e.Perform?
  {
    var op := d.ops[d.done];
    match e
    case StartBlock(b) =>
      var task := Remap.WeaveRemap(Remap.Direct(d.table), Some(d.header.stamp), op.grid, b);
      d.(blocks := d.blocks[b := Running(task, !d.header.timerOff)])
    case FinishBlock(b, cycles) =>
      var Running(task, on) := d.blocks[b];
      var added := if on && task < |d.table| then [Sample(op.step, task, cycles)] else [];
      d.(blocks := d.blocks[b := Retired(task)], log := d.log + added, all := d.all + added)
    case Complete =>
      var tasks := seq(op.grid, b requires 0 <= b < op.grid => d.blocks[b].task);
      d.(done := d.done + 1, blocks := map[], records := d.records + [Record(tasks, d.table, d.header.stamp)])
    case Perform =>
      var d' := d.(done := d.done + 1);
      match op
      case Copy(order) => d'.(table := Overlay(d.table, order))
      case _ => d'.(log := [])
  }

  function Step(cfg: Config, s: State, e: Event): State
    requires Enabled(s, e)
  {
    match e
    case BatchBegin(b) =>
      var (h, d) := Begin(cfg, s.host, s.dev, b);
      State(h, d, Some(s.host.step))
    case Enqueue(grid) => s.(dev := s.dev.(ops := s.dev.ops + [Launch(s.current, grid)]))
    case BatchEnd =>
      var (h, d) := End(s.host, s.dev);
      State(h, d, None)
    case _ => s.(dev := StepDevice(s.dev, e))
  }

  ghost predicate IsRun(cfg: Config, s: State, es: seq<Event>)
    decreases |es|
  {
    es == [] || (Enabled(s, es[0]) && IsRun(cfg, Step(cfg, s, es[0]), es[1..]))
  }

  ghost function Exec(cfg: Config, s: State, es: seq<Event>): State
    requires IsRun(cfg, s, es)
    decreases |es|
  {
    if es == [] then s else Exec(cfg, Step(cfg, s, es[0]), es[1..])
  }

  // ------------------------------------------------------------------
  // The two ways a batch can begin.
  // ------------------------------------------------------------------

  /** The hook gets past its early exits. */
  predicate Reaches(cfg: Config, s: State, b: Batch) {
    Planned(cfg, s.host) && b.slots.Some? && b.Tiles() <= |s.dev.table| && !Unbindable(b)
  }

  /** The host as the decision of a planned step sees it. */
  function Deciding(cfg: Config, s: State, b: Batch): Host {
    ResolveR(cfg, Consume(s.host.(step := s.host.step + 1), s.dev), b.occupancy)
  }

  lemma BeginPlans(cfg: Config, s: State, b: Batch)
    requires Reaches(cfg, s, b)
    ensures Begin(cfg, s.host, s.dev, b)
            == Plan(cfg, Deciding(cfg, s, b), s.dev, b, s.host.step, Probing(cfg, s.host))
  {
    hide Plan;
  }

  /** The early exits: off-cadence, no slots or too many tiles, or tiles bound to no request. */
  lemma BeginExits(cfg: Config, s: State, b: Batch)
    requires !Reaches(cfg, s, b)
    ensures var h0 := s.host.(step := s.host.step + 1);
            Begin(cfg, s.host, s.dev, b)
            == (if !Planned(cfg, s.host) then h0.(armed := false)
                else if b.slots.None? || b.Tiles() > |s.dev.table| then h0
                else Deciding(cfg, s, b), s.dev)
  {
    hide Plan, Consume, ResolveR;
  }
}
