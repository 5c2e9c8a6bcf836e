/**
 The hooks as they run: fields updated in place, one statement after the other.
 */
module ServingPlugin {
  import opened Prelude
  import opened ProbeFold
  import opened Serving

  class Plugin {
    const cfg: Config
    var step: nat
    var r: nat
    var pending: Option<Probe>
    var inflight: Option<nat>
    var orderN: Option<nat>
    var armed: bool
    var binding: Option<Binding>
    var mirror: Header
    var folds: seq<Fold>
    var dev: Device

    ghost function View(): Host
      reads this
    {
      Host(step, r, pending, inflight, orderN, armed, binding, mirror, folds)
    }

    constructor (cfg: Config, capacity: nat, r: nat)
      ensures this.cfg == cfg
      ensures View() == Init(capacity, r).host && dev == Init(capacity, r).dev
    {
      this.cfg := cfg;
      step, this.r, pending, inflight, orderN := 0, r, None, None, None;
      armed, binding, mirror, folds := false, None, Header(0, 0, false), [];
      dev := Device(Identity(capacity), Header(0, 0, false), [], [], [], 0, 0, map[], []);
    }

    method WriteOrder(order: seq<nat>)
      modifies this`dev
      ensures dev == SetOrder(cfg, old(dev), order)
    {
      if cfg.orderDevice {
        dev := dev.(ops := dev.ops + [Copy(order)]);
      } else {
        dev := dev.(table := Overlay(dev.table, order));
      }
    }

    /** Table first, stamp second; the stamp lands with the caller's push. */
    method InstallOrder(b: Batch)
      modifies this`dev, this`mirror, this`orderN
      ensures (View(), dev) == Installed(cfg, old(View()), old(dev), b)
    {
      WriteOrder(b.order);
      mirror := mirror.(stamp := b.Tiles());
      orderN := Some(b.Tiles());
    }

    method Push()
      modifies this`dev
      ensures dev == old(dev).(header := mirror)
    {
      dev := dev.(header := mirror);
    }

    method ConsumeProbe()
      modifies this`pending, this`folds
      ensures View() == Consume(old(View()), dev)
    {
      if pending.None? {
        return;
      }
      var probe := pending.value;
      if dev.done < probe.event {
        return;
      }
      pending := None;
      var rows := Rows(dev.log, |dev.table|);
      if probe.binding.None? {
        return;
      }
      var bound := probe.binding.value;
      var perRequest := FoldRows(|bound.slots|, bound.tileMap, rows);
      folds := folds + [Fold(bound, dev.log, perRequest)];
    }

    method Enforce(b: Batch)
      modifies this`dev, this`mirror, this`orderN
      ensures (View(), dev) == Decide(cfg, old(View()), old(dev), b)
    {
      var tiles := b.Tiles();
      var arm := cfg.clc == On || (cfg.clc == Auto && r > 0 && tiles > r && b.hot);
      if arm {
        InstallOrder(b);
        mirror := mirror.(numTasks := tiles);
      } else if r > 0 && tiles <= r {
        if orderN.Some? {
          WriteOrder(Identity(|dev.table|));
          mirror := mirror.(stamp := 0);
          orderN := None;
        }
        mirror := mirror.(numTasks := 0);
      } else {
        if inflight.None? || dev.done >= inflight.value {
          InstallOrder(b);
        }
        mirror := mirror.(numTasks := 0);
      }
    }

    /** The planned part of the hook: arm or disarm the timer, enforce, push, clear, bind. */
    method PlanBatch(b: Batch, now: nat, probe: bool)
      requires b.slots.Some?
      modifies this`dev, this`mirror, this`orderN, this`armed, this`binding
      ensures (View(), dev) == Plan(cfg, old(View()), old(dev), b, now, probe)
    {
      hide Decide, ClearTimer;
      mirror := mirror.(timerOff := !probe);
      armed := probe;
      if !cfg.observeOnly {
        Enforce(b);
      } else {
        mirror := mirror.(numTasks := 0);
      }
      Push();
      if probe {
        dev := ClearTimer(cfg, dev);
      }
      binding := Some(Binding(now, b.slots.value, b.kvs, b.tileMap));
    }

    method OnBatchBegin(b: Batch)
      modifies this
      ensures (View(), dev) == Begin(cfg, old(View()), old(dev), b)
    {
      hide Plan, Consume;
      var now := step;
      step := now + 1;
      var probe := now % cfg.timerEvery == 0 && pending.None?;
      if now % cfg.planEvery != 0 && !probe {
        armed := false;
        return;
      }
      if b.slots.None? || b.Tiles() > |dev.table| {
        return;
      }
      ConsumeProbe();
      if r == 0 && cfg.clc != Off && step % 64 == 1 {
        r := b.occupancy;
      }
      if |b.slots.value| == 0 && b.Tiles() > 0 {
        return;
      }
      PlanBatch(b, now, probe);
    }

    method OnBatchEnd()
      modifies this
      ensures (View(), dev) == End(old(View()), old(dev))
    {
      var event := |dev.ops|;
      inflight := Some(event);
      if armed {
        pending := Some(Probe(event, binding));
        mirror := mirror.(timerOff := true);
        Push();
      }
    }
  }
}
