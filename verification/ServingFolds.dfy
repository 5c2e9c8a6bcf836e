/**
 What the folded probes are worth: exactly their own step's samples, charged to their own step's
 requests; exactly when a probe is folded more than once; and which blocks a probe samples.
 */
module ServingFolds {
  import opened Prelude
  import opened ProbeFold
  import opened Serving
  import opened ServingProbe
  import opened ServingRuns

  // ------------------------------------------------------------------
  // Bindings.
  // ------------------------------------------------------------------

  /** The batches of a run, in order. */
  function Begins(es: seq<Event>): seq<Batch> {
    if es == [] then [] else BatchOf(es[0]) + Begins(es[1..])
  }

  function BatchOf(e: Event): seq<Batch> {
    if e.BatchBegin? then [e.batch] else []
  }

  /** The binding is what the batch of its step says. */
  ghost predicate Bound(bs: seq<Batch>, b: Binding) {
    b.step < |bs| && bs[b.step].slots == Some(b.slots) && bs[b.step].kvs == b.kvs && bs[b.step].tileMap == b.tileMap
  }

  ghost predicate BoundInv(h: Host, bs: seq<Batch>) {
    && h.step == |bs|
    && (h.binding.Some? ==> Bound(bs, h.binding.value))
    && (h.pending.Some? && h.pending.value.binding.Some? ==> Bound(bs, h.pending.value.binding.value))
    && (forall k :: 0 <= k < |h.folds| ==> Bound(bs, h.folds[k].binding))
  }

  lemma BoundGrows(h: Host, h': Host, bs: seq<Batch>, b: Batch)
    requires BoundInv(h, bs) && h'.step == h.step + 1 && h'.binding == h.binding
    requires h'.pending == h.pending || h'.pending.None?
    requires |h'.folds| <= |h.folds| + 1
    requires forall k :: 0 <= k < |h'.folds| ==>
               if k < |h.folds| then h'.folds[k] == h.folds[k]
               else h.pending.Some? && h.pending.value.binding == Some(h'.folds[k].binding)
    ensures BoundInv(h', bs + [b])
  {
    forall x | Bound(bs, x) ensures Bound(bs + [b], x) {
    }
  }

  lemma BoundDecides(cfg: Config, s: State, b: Batch, bs: seq<Batch>)
    requires BoundInv(s.host, bs)
    ensures BoundInv(Deciding(cfg, s, b), bs + [b])
    ensures Deciding(cfg, s, b).step == s.host.step + 1
  {
    hide PerRequest, Rows, Bound;
    BoundGrows(s.host, Deciding(cfg, s, b), bs, b);
  }

  lemma BoundBegin(cfg: Config, s: State, b: Batch, bs: seq<Batch>)
    requires BoundInv(s.host, bs)
    ensures BoundInv(Begin(cfg, s.host, s.dev, b).0, bs + [b])
  {
    BoundDecides(cfg, s, b, bs);
    if Reaches(cfg, s, b) {
      BeginPlans(cfg, s, b);
      assert b.slots.Some?;
      hide Begin, Plan, Deciding, Reaches;
      var h2, d2 := PlanIsArmed(cfg, Deciding(cfg, s, b), s.dev, b, s.host.step, Probing(cfg, s.host));
    } else {
      BeginExits(cfg, s, b);
      hide Begin, Deciding, Reaches, Bound;
      BoundGrows(s.host, s.host.(step := s.host.step + 1), bs, b);
    }
  }

  lemma BoundStep(cfg: Config, s: State, e: Event, bs: seq<Batch>)
    requires BoundInv(s.host, bs) && Enabled(s, e)
    ensures BoundInv(Step(cfg, s, e).host, bs + BatchOf(e))
  {
    if e.BatchBegin? {
      BoundBegin(cfg, s, e.batch, bs);
      hide Begin;
      assert bs + BatchOf(e) == bs + [e.batch];
    } else {
      assert bs + BatchOf(e) == bs;
    }
  }

  lemma {:induction false} BoundRun(cfg: Config, s: State, es: seq<Event>, bs: seq<Batch>)
    requires IsRun(cfg, s, es) && BoundInv(s.host, bs)
    ensures BoundInv(Exec(cfg, s, es).host, bs + Begins(es))
    decreases |es|
  {
    if es == [] {
      assert bs + [] == bs;
    } else {
      hide Step, Enabled, BoundInv, BatchOf;
      BoundStep(cfg, s, es[0], bs);
      BoundRun(cfg, Step(cfg, s, es[0]), es[1..], bs + BatchOf(es[0]));
      assert bs + BatchOf(es[0]) + Begins(es[1..]) == bs + (BatchOf(es[0]) + Begins(es[1..]));
    }
  }

  /**
   In every run, every fold takes in exactly the samples of its own probe step's launches: no other
   step's cycles, and none of that step's cleared unread. It charges them to the requests that this
   very step's batch bound its tiles to, and charges every folded cycle once.
   */
  lemma FoldIsItsProbe(cfg: Config, capacity: nat, r: nat, es: seq<Event>, k: nat)
    requires cfg.timerDevice && IsRun(cfg, Init(capacity, r), es)
    requires k < |Exec(cfg, Init(capacity, r), es).host.folds|
    ensures var s := Exec(cfg, Init(capacity, r), es);
            var f := s.host.folds[k];
            && f.log == Only(s.dev.all, f.binding.step)
            && Bound(Begins(es), f.binding)
            && |s.dev.table| == capacity
            && f.perRequest == PerRequest(|f.binding.slots|, f.binding.tileMap, Rows(f.log, capacity))
            && (|f.binding.slots| > 0 ==>
                  Sum(f.perRequest)
                  == Sum(Rows(f.log, capacity)[..Folded(|f.binding.slots|, f.binding.tileMap, capacity)]))
  {
    var s := Exec(cfg, Init(capacity, r), es);
    InitProbe(capacity, r);
    ProbeRun(cfg, Init(capacity, r), es);
    BoundRun(cfg, Init(capacity, r), es, []);
    assert [] + Begins(es) == Begins(es);
    TableLength(cfg, Init(capacity, r), es);
    var f := s.host.folds[k];
    assert FoldOk(s, f) && Bound(Begins(es), f.binding);
    if |f.binding.slots| > 0 {
      FoldConserves(|f.binding.slots|, f.binding.tileMap, Rows(f.log, capacity));
    }
  }

  lemma StepLength(cfg: Config, s: State, e: Event)
    requires Enabled(s, e)
    ensures |Step(cfg, s, e).dev.table| == |s.dev.table|
  {
    hide Consume, ResolveR, Overlay;
  }

  lemma {:induction false} TableLength(cfg: Config, s: State, es: seq<Event>)
    requires IsRun(cfg, s, es)
    ensures |Exec(cfg, s, es).dev.table| == |s.dev.table|
    decreases |es|
  {
    if es != [] {
      hide Step, Enabled;
      StepLength(cfg, s, es[0]);
      TableLength(cfg, Step(cfg, s, es[0]), es[1..]);
    }
  }

  // ------------------------------------------------------------------
  // How often a probe is folded.
  // ------------------------------------------------------------------

  /** Steps are folded in order, and none that is still live has been. */
  ghost predicate FoldedOnce(h: Host) {
    && (forall i, j :: 0 <= i < j < |h.folds| ==> h.folds[i].binding.step < h.folds[j].binding.step)
    && (forall k :: 0 <= k < |h.folds| ==> h.folds[k].binding.step < h.step)
    && (Live(h).Some? ==> forall k :: 0 <= k < |h.folds| ==> h.folds[k].binding.step < Live(h).value)
  }

  /** The pending probe's event has fired. */
  predicate Folding(s: State) {
    s.host.pending.Some? && s.dev.done >= s.host.pending.value.event
  }

  /**
   The hook folds a probe and then gives up on the batch, with the armed flag still up from a step
   that had no slots: the next end of batch puts the same probe back.
   */
  predicate Refolds(cfg: Config, s: State, e: Event) {
    && e.BatchBegin? && Planned(cfg, s.host) && e.batch.slots.Some? && e.batch.Tiles() <= |s.dev.table|
    && s.host.armed && Folding(s) && Unbindable(e.batch)
  }

  /** One more fold, of a step past all the others. */
  lemma OnceAppends(h: Host, h': Host, f: Fold)
    requires FoldedOnce(h) && Live(h) == Some(f.binding.step) && f.binding.step < h.step
    requires h'.folds == h.folds + [f] && h'.step == h.step + 1 && h'.pending.None?
    ensures FoldedOnce(h'.(armed := false))
    ensures FoldedOnce(h') <==> Live(h').None? || Live(h').value > f.binding.step
  {
    var n := |h.folds|;
    assert h'.folds[n] == f;
    assert forall k :: 0 <= k < n ==> h'.folds[k] == h.folds[k];
  }

  lemma OnceConsumes(s: State)
    requires HostOk(s) && FoldedOnce(s.host)
    ensures var h := Consume(s.host.(step := s.host.step + 1), s.dev);
            && FoldedOnce(h.(armed := false))
            && (forall k :: 0 <= k < |h.folds| ==> h.folds[k].binding.step < s.host.step)
            && (FoldedOnce(h) <==> !(s.host.armed && Folding(s)))
  {
    hide PerRequest, Rows;
    var h := Consume(s.host.(step := s.host.step + 1), s.dev);
    if Folding(s) {
      hide FoldedOnce;
      OnceAppends(s.host, h, h.folds[|s.host.folds|]);
      OnceBelow(s.host);
    }
  }

  lemma OnceBelow(h: Host)
    requires FoldedOnce(h)
    ensures forall k :: 0 <= k < |h.folds| ==> h.folds[k].binding.step < h.step
  {
  }

  lemma OnceDecides(cfg: Config, s: State, b: Batch)
    requires HostOk(s) && FoldedOnce(s.host) && s.current.None?
    ensures var h := Deciding(cfg, s, b);
            && FoldedOnce(h.(armed := false))
            && (forall k :: 0 <= k < |h.folds| ==> h.folds[k].binding.step < s.host.step)
            && h.step == s.host.step + 1
            && (Probing(cfg, s.host) ==> h.pending.None?)
            && (FoldedOnce(h) <==> !(s.host.armed && Folding(s)))
  {
    hide FoldedOnce, Consume;
    OnceConsumes(s);
    var h0 := Consume(s.host.(step := s.host.step + 1), s.dev);
    var h := Deciding(cfg, s, b);
    OnceAlike(h0, h);
    OnceAlike(h0.(armed := false), h.(armed := false));
    ConsumeFrame(s.host.(step := s.host.step + 1), s.dev);
  }

  lemma OnceAlike(h: Host, h': Host)
    requires h' == h.(r := h'.r)
    ensures FoldedOnce(h) <==> FoldedOnce(h')
  {
  }

  lemma ConsumeFrame(h: Host, d: Device)
    ensures Consume(h, d).step == h.step && (h.pending.None? ==> Consume(h, d).pending.None?)
  {
    hide PerRequest, Rows;
  }

  lemma OnceArmed(h: Host, h': Host, step: nat)
    requires FoldedOnce(h.(armed := false)) && h.step == step + 1
    requires forall k :: 0 <= k < |h.folds| ==> h.folds[k].binding.step < step
    requires h'.folds == h.folds && h'.step == h.step && h'.pending == h.pending
    requires h'.armed ==> h.pending.None? && h'.binding.Some? && h'.binding.value.step == step
    ensures FoldedOnce(h')
  {
  }

  lemma OnceReaches(cfg: Config, s: State, b: Batch)
    requires HostOk(s) && FoldedOnce(s.host) && s.current.None? && Reaches(cfg, s, b)
    ensures FoldedOnce(Begin(cfg, s.host, s.dev, b).0)
  {
    BeginPlans(cfg, s, b);
    OnceDecides(cfg, s, b);
    assert b.slots.Some?;
    hide Begin, Plan, Deciding, HostOk, Reaches, FoldedOnce, Probing;
    var h := Deciding(cfg, s, b);
    var h2, d2 := PlanIsArmed(cfg, h, s.dev, b, s.host.step, Probing(cfg, s.host));
    OnceArmed(h, Plan(cfg, h, s.dev, b, s.host.step, Probing(cfg, s.host)).0, s.host.step);
  }

  lemma OnceExits(cfg: Config, s: State, b: Batch)
    requires HostOk(s) && FoldedOnce(s.host) && s.current.None? && !Reaches(cfg, s, b)
    ensures FoldedOnce(Begin(cfg, s.host, s.dev, b).0) <==> !Refolds(cfg, s, BatchBegin(b))
  {
    BeginExits(cfg, s, b);
    if Planned(cfg, s.host) && b.slots.Some? && b.Tiles() <= |s.dev.table| {
      hide FoldedOnce, HostOk, Begin, Deciding;
      OnceDecides(cfg, s, b);
    } else {
      hide HostOk, Begin, Deciding;
    }
  }

  lemma OnceBegins(cfg: Config, s: State, b: Batch)
    requires HostOk(s) && FoldedOnce(s.host) && s.current.None?
    ensures FoldedOnce(Begin(cfg, s.host, s.dev, b).0) <==> !Refolds(cfg, s, BatchBegin(b))
  {
    hide Begin, FoldedOnce, HostOk;
    if Reaches(cfg, s, b) {
      OnceReaches(cfg, s, b);
    } else {
      OnceExits(cfg, s, b);
    }
  }

  ghost predicate FoldsPast(h: Host) {
    forall k :: 0 <= k < |h.folds| ==> h.folds[k].binding.step < h.step
  }

  /** The host half of the invariant, apart from how the step ends. */
  ghost predicate HostCore(h: Host, header: Header, ops: nat) {
    && h.mirror == header && FoldsPast(h)
    && (h.binding.Some? ==> h.binding.value.step < h.step)
    && (h.pending.Some? ==>
          && h.pending.value.binding.Some? && h.pending.value.binding.value.step < h.step
          && h.mirror.timerOff && h.pending.value.event <= ops)
    && (h.armed ==> h.binding.Some?)
    && (h.armed && h.pending.Some? ==> h.pending.value.binding == h.binding)
  }

  lemma DecidingCore(cfg: Config, s: State, b: Batch)
    requires HostOk(s) && FoldsPast(s.host) && s.current.None?
    ensures var h := Deciding(cfg, s, b);
            && HostCore(h, s.dev.header, |s.dev.ops|) && h.step == s.host.step + 1
            && (Probing(cfg, s.host) ==> h.pending.None?)
  {
    hide PerRequest, Rows;
  }

  lemma BeginCore(cfg: Config, s: State, b: Batch)
    requires HostOk(s) && FoldsPast(s.host) && s.current.None?
    ensures var (h, d) := Begin(cfg, s.host, s.dev, b);
            && HostCore(h, d.header, |d.ops|) && h.step == s.host.step + 1
            && d.done == s.dev.done && d.blocks == s.dev.blocks && d.all == s.dev.all
            && |s.dev.ops| <= |d.ops| && (forall i :: 0 <= i < |s.dev.ops| ==> d.ops[i] == s.dev.ops[i])
            && (forall i :: |s.dev.ops| <= i < |d.ops| ==> !d.ops[i].Launch?)
  {
    DecidingCore(cfg, s, b);
    if Reaches(cfg, s, b) {
      BeginPlans(cfg, s, b);
      assert b.slots.Some?;
      hide Begin, Plan, Deciding, Reaches, Probing;
      var h2, d2 := PlanIsArmed(cfg, Deciding(cfg, s, b), s.dev, b, s.host.step, Probing(cfg, s.host));
    } else {
      BeginExits(cfg, s, b);
      hide Begin, Deciding, Reaches, Probing;
    }
  }

  /** On either timer channel a step keeps at most one probe live, with its own binding. */
  lemma HostStep(cfg: Config, s: State, e: Event)
    requires HostOk(s) && FoldsPast(s.host) && Enabled(s, e)
    ensures HostOk(Step(cfg, s, e))
  {
    if e.BatchBegin? {
      hide Begin;
      BeginCore(cfg, s, e.batch);
    }
  }

  /** A step keeps every probe folded at most once, except exactly such a give-up. */
  lemma OnceStep(cfg: Config, s: State, e: Event)
    requires HostOk(s) && FoldedOnce(s.host) && Enabled(s, e)
    ensures FoldedOnce(Step(cfg, s, e).host) <==> !Refolds(cfg, s, e)
  {
    if e.BatchBegin? {
      hide Begin, Refolds, FoldedOnce;
      OnceBegins(cfg, s, e.batch);
    }
  }

  lemma {:induction false} OnceThrough(cfg: Config, s: State, es: seq<Event>)
    requires HostOk(s) && FoldedOnce(s.host) && IsRun(cfg, s, es)
    requires NeverRefolds(cfg, s, es)
    ensures FoldedOnce(Exec(cfg, s, es).host)
    decreases |es|
  {
    OnceBelow(s.host);
    hide HostOk, FoldedOnce, Step, Enabled, Refolds;
    if es != [] {
      OnceStep(cfg, s, es[0]);
      HostStep(cfg, s, es[0]);
      OnceThrough(cfg, Step(cfg, s, es[0]), es[1..]);
    }
  }

  /** On either channel, a run without such a give-up folds no probe twice. */
  lemma OnceRun(cfg: Config, capacity: nat, r: nat, es: seq<Event>)
    requires IsRun(cfg, Init(capacity, r), es) && NeverRefolds(cfg, Init(capacity, r), es)
    ensures FoldedOnce(Exec(cfg, Init(capacity, r), es).host)
  {
    OnceThrough(cfg, Init(capacity, r), es);
  }

  ghost predicate NeverRefolds(cfg: Config, s: State, es: seq<Event>)
    requires IsRun(cfg, s, es)
    decreases |es|
  {
    es == [] || (!Refolds(cfg, s, es[0]) && NeverRefolds(cfg, Step(cfg, s, es[0]), es[1..]))
  }

  /** Two folds of the same step. */
  ghost predicate FoldsTwice(h: Host) {
    exists i, j :: 0 <= i < j < |h.folds| && h.folds[i].binding.step == h.folds[j].binding.step
  }

  /** After such a give-up there is always a continuation in which the probe is folded a second time. */
  lemma RefoldHappens(cfg: Config, s: State, b: Batch) returns (es: seq<Event>)
    requires HostOk(s) && TagsOk(s) && Enabled(s, BatchBegin(b)) && Refolds(cfg, s, BatchBegin(b))
    ensures IsRun(cfg, s, es) && FoldsTwice(Exec(cfg, s, es).host)
  {
    var e := BatchBegin(b);
    BeginExits(cfg, s, b);
    var s1 := Step(cfg, s, e);
    var n := |s.host.folds|;
    assert s1.host.folds[n].binding == s.host.binding.value && s1.host.armed && s1.host.binding == s.host.binding;
    assert |s1.host.folds| == n + 1;
    hide Begin, Consume, PerRequest, Rows;
    var rest := EndsInFold(cfg, s1);
    RunCons(cfg, s, e, rest);
    es := [e] + rest;
    var t := Exec(cfg, s, es);
    assert t.host.folds[n].binding == s1.host.folds[n].binding;
    assert t.host.folds[n + 1].binding == s.host.binding.value;
  }

  const EVERY_STEP: Config := Config(1, 1, true, Off, false, true)

  /** A probe whose event fires, then a step without slots. */
  function GiveUpRun(): seq<Event> {
    [BatchBegin(OneRequest()), BatchEnd, Perform, BatchBegin(NoSlots()), BatchEnd]
  }

  function OneRequest(): Batch {
    Batch(Some([5]), [], None, [0], false, 0)
  }

  function NoSlots(): Batch {
    Batch(None, [], None, [], false, 0)
  }

  /** One tile, bound to a batch of no requests. */
  function TileOfNobody(): Batch {
    Batch(Some([]), [], Some([0]), [0], false, 0)
  }

  lemma GiveUpStarts()
    ensures var s := Step(EVERY_STEP, Init(4, 0), BatchBegin(OneRequest()));
            && s.host.armed && s.host.pending.None? && s.host.step == 1 && s.dev.ops == [Clear] && s.dev.done == 0
            && s.host.binding.Some? && s.host.binding.value.step == 0 && |s.dev.table| == 4 && s.current.Some?
            && s.host.folds == []
  {
  }

  lemma GiveUpArrives()
    ensures IsRun(EVERY_STEP, Init(4, 0), GiveUpRun())
    ensures var s := Exec(EVERY_STEP, Init(4, 0), GiveUpRun());
            Enabled(s, BatchBegin(TileOfNobody())) && Refolds(EVERY_STEP, s, BatchBegin(TileOfNobody()))
  {
    var s0 := Init(4, 0);
    GiveUpStarts();
    var s1 := Step(EVERY_STEP, s0, BatchBegin(OneRequest()));
    var s2 := Step(EVERY_STEP, s1, BatchEnd);
    var s3 := Step(EVERY_STEP, s2, Perform);
    BeginExits(EVERY_STEP, s3, NoSlots());
    var s4 := Step(EVERY_STEP, s3, BatchBegin(NoSlots()));
    hide Begin;
    var s5 := Step(EVERY_STEP, s4, BatchEnd);
    GiveUpIsRun(s0, GiveUpRun());
    assert Exec(EVERY_STEP, s0, GiveUpRun()) == s5;
  }

  /** That run gets there: a batch whose only tile has no request is then given up after the fold. */
  lemma GiveUpReachable() returns (es: seq<Event>)
    ensures IsRun(EVERY_STEP, Init(4, 0), es) && FoldsTwice(Exec(EVERY_STEP, Init(4, 0), es).host)
  {
    hide IsRun, Exec, Step, Enabled, Refolds, FoldsTwice;
    GiveUpArrives();
    InitProbe(4, 0);
    var first := GiveUpRun();
    ProbeRun(EVERY_STEP, Init(4, 0), first);
    var rest := RefoldHappens(EVERY_STEP, Exec(EVERY_STEP, Init(4, 0), first), TileOfNobody());
    RunJoin(EVERY_STEP, Init(4, 0), first, rest);
    es := first + rest;
  }

  lemma GiveUpIsRun(s: State, es: seq<Event>)
    requires |es| == 5 && Enabled(s, es[0])
    requires var s1 := Step(EVERY_STEP, s, es[0]);
             Enabled(s1, es[1])
             && var s2 := Step(EVERY_STEP, s1, es[1]);
                Enabled(s2, es[2])
                && var s3 := Step(EVERY_STEP, s2, es[2]);
                   Enabled(s3, es[3]) && Enabled(Step(EVERY_STEP, s3, es[3]), es[4])
    ensures IsRun(EVERY_STEP, s, es)
    ensures Exec(EVERY_STEP, s, es)
            == Step(EVERY_STEP, Step(EVERY_STEP, Step(EVERY_STEP, Step(EVERY_STEP, Step(EVERY_STEP, s, es[0]), es[1]),
                                                      es[2]), es[3]), es[4])
  {
    hide Step, Enabled;
    var s1 := Step(EVERY_STEP, s, es[0]);
    var s2 := Step(EVERY_STEP, s1, es[1]);
    var s3 := Step(EVERY_STEP, s2, es[2]);
    var s4 := Step(EVERY_STEP, s3, es[3]);
    RunOne(EVERY_STEP, s4, es[4]);
    RunCons(EVERY_STEP, s3, es[3], [es[4]]);
    RunCons(EVERY_STEP, s2, es[2], [es[3]] + [es[4]]);
    RunCons(EVERY_STEP, s1, es[1], [es[2]] + ([es[3]] + [es[4]]));
    RunCons(EVERY_STEP, s, es[0], [es[1]] + ([es[2]] + ([es[3]] + [es[4]])));
    assert es == [es[0]] + ([es[1]] + ([es[2]] + ([es[3]] + [es[4]])));
  }

  // ------------------------------------------------------------------
  // Which blocks add a sample.
  // ------------------------------------------------------------------

  lemma BeginLeaves(cfg: Config, s: State, b: Batch)
    ensures var d := Begin(cfg, s.host, s.dev, b).1;
            && d.done == s.dev.done && d.blocks == s.dev.blocks && |d.table| == |s.dev.table|
            && |s.dev.ops| <= |d.ops| && forall i :: 0 <= i < |s.dev.ops| ==> d.ops[i] == s.dev.ops[i]
  {
    if Reaches(cfg, s, b) {
      BeginPlans(cfg, s, b);
      assert b.slots.Some?;
      hide Begin, Plan, Deciding;
      var h2, d2 := PlanIsArmed(cfg, Deciding(cfg, s, b), s.dev, b, s.host.step, Probing(cfg, s.host));
    } else {
      BeginExits(cfg, s, b);
      hide Begin;
    }
  }

  /** This block of the head launch is running. */
  ghost predicate Holds(s: State, op: Op, b: nat, block: Block) {
    && s.dev.done < |s.dev.ops| && s.dev.ops[s.dev.done] == op && op.Launch? && b < op.grid
    && b in s.dev.blocks && s.dev.blocks[b] == block && block.Running?
  }

  lemma HoldsOn(cfg: Config, s: State, e: Event, op: Op, b: nat, block: Block)
    requires Enabled(s, e) && Holds(s, op, b, block) && !(e.FinishBlock? && e.block == b)
    ensures Holds(Step(cfg, s, e), op, b, block) && |Step(cfg, s, e).dev.table| == |s.dev.table|
  {
    if e.BatchBegin? {
      BeginLeaves(cfg, s, e.batch);
      hide Begin;
    }
  }

  lemma {:induction false} HoldsThroughout(cfg: Config, s: State, es: seq<Event>, op: Op, b: nat, block: Block)
    requires IsRun(cfg, s, es) && Holds(s, op, b, block)
    requires forall k :: 0 <= k < |es| && es[k].FinishBlock? ==> es[k].block != b
    ensures Holds(Exec(cfg, s, es), op, b, block) && |Exec(cfg, s, es).dev.table| == |s.dev.table|
    decreases |es|
  {
    hide Holds, Step, Enabled;
    if es != [] {
      HoldsOn(cfg, s, es[0], op, b, block);
      HoldsThroughout(cfg, Step(cfg, s, es[0]), es[1..], op, b, block);
    }
  }

  lemma StartHolds(cfg: Config, s: State, b: nat)
    requires Enabled(s, StartBlock(b))
    ensures var t := Step(cfg, s, StartBlock(b));
            && s.dev.done < |s.dev.ops| && b in t.dev.blocks && |t.dev.table| == |s.dev.table|
            && t.dev.blocks[b].Running? && t.dev.blocks[b].on == !s.dev.header.timerOff
            && Holds(t, s.dev.ops[s.dev.done], b, t.dev.blocks[b])
  {
  }

  lemma SampledAtEnd(cfg: Config, s: State, op: Op, b: nat, block: Block, cycles: nat)
    requires Holds(s, op, b, block)
    ensures var t := Step(cfg, s, FinishBlock(b, cycles));
            var added := if block.on && block.task < |s.dev.table| then [Sample(op.step, block.task, cycles)] else [];
            Enabled(s, FinishBlock(b, cycles)) && t.dev.log == s.dev.log + added && t.dev.all == s.dev.all + added
  {
  }

  /**
   The flag is latched at entry. Whatever hooks, pushes and other blocks do between a block's start
   and its end, it adds a sample if and only if the flag was on when it started and its task has a
   row, and then it is its own cycles under its own step. A probe's block that starts only after the
   push at the end of the batch therefore adds none.
   */
  lemma SampledIffOnAtStart(cfg: Config, s: State, b: nat, es: seq<Event>, cycles: nat)
    requires Enabled(s, StartBlock(b)) && IsRun(cfg, Step(cfg, s, StartBlock(b)), es)
    requires forall k :: 0 <= k < |es| && es[k].FinishBlock? ==> es[k].block != b
    ensures var op, block := s.dev.ops[s.dev.done], Step(cfg, s, StartBlock(b)).dev.blocks[b];
            var t := Exec(cfg, Step(cfg, s, StartBlock(b)), es);
            var e := FinishBlock(b, cycles);
            var added := if !s.dev.header.timerOff && block.task < |s.dev.table|
                         then [Sample(op.step, block.task, cycles)] else [];
            && Enabled(t, e)
            && Step(cfg, t, e).dev.log == t.dev.log + added && Step(cfg, t, e).dev.all == t.dev.all + added
  {
    StartHolds(cfg, s, b);
    hide Exec, IsRun, Holds, Step;
    var s1 := Step(cfg, s, StartBlock(b));
    var op, block := s.dev.ops[s.dev.done], s1.dev.blocks[b];
    HoldsThroughout(cfg, s1, es, op, b, block);
    SampledAtEnd(cfg, Exec(cfg, s1, es), op, b, block, cycles);
  }
}
