/**
 Building runs of the serving loop: joining them, letting the stream drain, and waiting for the
 next planned step, which folds a probe whose event has fired.
 */
module ServingRuns {
  import opened Prelude
  import opened ProbeFold
  import opened Serving
  import opened ServingProbe

  lemma RunCons(cfg: Config, s: State, e: Event, fs: seq<Event>)
    requires Enabled(s, e) && IsRun(cfg, Step(cfg, s, e), fs)
    ensures IsRun(cfg, s, [e] + fs) && Exec(cfg, s, [e] + fs) == Exec(cfg, Step(cfg, s, e), fs)
  {
    hide Step, Enabled;
    assert ([e] + fs)[1..] == fs && ([e] + fs)[0] == e;
  }

  lemma RunOne(cfg: Config, s: State, e: Event)
    requires Enabled(s, e)
    ensures IsRun(cfg, s, [e]) && Exec(cfg, s, [e]) == Step(cfg, s, e)
  {
    RunCons(cfg, s, e, []);
    assert [e] + [] == [e];
  }

  lemma {:induction false} RunJoin(cfg: Config, s: State, es: seq<Event>, fs: seq<Event>)
    requires IsRun(cfg, s, es) && IsRun(cfg, Exec(cfg, s, es), fs)
    ensures IsRun(cfg, s, es + fs) && Exec(cfg, s, es + fs) == Exec(cfg, Exec(cfg, s, es), fs)
    decreases |es|
  {
    hide Step, Enabled;
    if es == [] {
      assert [] + fs == fs;
    } else {
      RunJoin(cfg, Step(cfg, s, es[0]), es[1..], fs);
      RunCons(cfg, s, es[0], es[1..] + fs);
      assert [es[0]] + (es[1..] + fs) == es + fs;
    }
  }

  // ------------------------------------------------------------------
  // Draining the stream.
  // ------------------------------------------------------------------

  /** A running block belongs to a launch at the head of the stream. */
  ghost predicate HeadOk(d: Device) {
    d.done <= |d.ops| && (d.blocks != map[] ==> d.done < |d.ops| && d.ops[d.done].Launch?)
  }

  ghost predicate ClearFree(d: Device) {
    forall i :: 0 <= i < |d.ops| ==> !d.ops[i].Clear?
  }

  /** What device steps leave alone. */
  ghost predicate Advanced(s: State, t: State) {
    && t.host == s.host && t.current == s.current
    && t.dev.ops == s.dev.ops && t.dev.header == s.dev.header && t.dev.clearAt == s.dev.clearAt
    && |t.dev.table| == |s.dev.table| && s.dev.done <= t.dev.done
    && (ClearFree(s.dev) ==> s.dev.log <= t.dev.log)
  }

  lemma DeviceAdvances(cfg: Config, s: State, e: Event)
    requires Enabled(s, e) && OnDevice(e) && HeadOk(s.dev)
    ensures Advanced(s, Step(cfg, s, e)) && HeadOk(Step(cfg, s, e).dev)
  {
  }

  lemma AdvancesThrough(s: State, t: State, u: State)
    requires Advanced(s, t) && Advanced(t, u)
    ensures Advanced(s, u)
  {
  }

  ghost predicate RetiredBelow(d: Device, b: nat) {
    forall c :: 0 <= c < b ==> c in d.blocks && d.blocks[c].Retired?
  }

  /** One more block of the head launch, from wherever it has got. */
  lemma RetireBlock(cfg: Config, s: State, b: nat) returns (es: seq<Event>)
    requires HeadOk(s.dev) && s.dev.done < |s.dev.ops| && s.dev.ops[s.dev.done].Launch?
    requires b < s.dev.ops[s.dev.done].grid && RetiredBelow(s.dev, b)
    ensures IsRun(cfg, s, es)
    ensures var t := Exec(cfg, s, es);
            Advanced(s, t) && HeadOk(t.dev) && t.dev.done == s.dev.done && RetiredBelow(t.dev, b + 1)
  {
    if b in s.dev.blocks && s.dev.blocks[b].Retired? {
      es := [];
    } else if b in s.dev.blocks {
      es := [FinishBlock(b, 0)];
      RunOne(cfg, s, es[0]);
      DeviceAdvances(cfg, s, es[0]);
    } else {
      es := [StartBlock(b), FinishBlock(b, 0)];
      var t := Step(cfg, s, es[0]);
      DeviceAdvances(cfg, s, es[0]);
      DeviceAdvances(cfg, t, es[1]);
      RunOne(cfg, t, es[1]);
      RunCons(cfg, s, es[0], [es[1]]);
      AdvancesThrough(s, t, Step(cfg, t, es[1]));
    }
  }

  lemma {:induction false} FinishLaunch(cfg: Config, s: State, b: nat) returns (es: seq<Event>)
    requires HeadOk(s.dev) && s.dev.done < |s.dev.ops| && s.dev.ops[s.dev.done].Launch?
    requires b <= s.dev.ops[s.dev.done].grid && RetiredBelow(s.dev, b)
    ensures IsRun(cfg, s, es)
    ensures var t := Exec(cfg, s, es);
            Advanced(s, t) && HeadOk(t.dev) && t.dev.done == s.dev.done + 1 && t.dev.blocks == map[]
    decreases s.dev.ops[s.dev.done].grid - b
  {
    if b == s.dev.ops[s.dev.done].grid {
      es := [Complete];
      RunOne(cfg, s, Complete);
      DeviceAdvances(cfg, s, Complete);
    } else {
      var first := RetireBlock(cfg, s, b);
      var t := Exec(cfg, s, first);
      hide RetiredBelow, HeadOk, IsRun, Exec, Advanced;
      var rest := FinishRest(cfg, s, t, b);
      RunJoin(cfg, s, first, rest);
      AdvancesThrough(s, t, Exec(cfg, t, rest));
      es := first + rest;
    }
  }

  lemma {:induction false} FinishRest(cfg: Config, s: State, t: State, b: nat) returns (es: seq<Event>)
    requires Advanced(s, t) && HeadOk(t.dev) && t.dev.done == s.dev.done < |s.dev.ops|
    requires s.dev.ops[s.dev.done].Launch? && b < s.dev.ops[s.dev.done].grid && RetiredBelow(t.dev, b + 1)
    ensures IsRun(cfg, t, es)
    ensures var u := Exec(cfg, t, es);
            Advanced(t, u) && HeadOk(u.dev) && u.dev.done == s.dev.done + 1 && u.dev.blocks == map[]
    decreases s.dev.ops[s.dev.done].grid - b, 0
  {
    es := FinishLaunch(cfg, t, b + 1);
  }

  /** The stream can always be drained up to any position. */
  lemma {:induction false} DrainTo(cfg: Config, s: State, j: nat) returns (es: seq<Event>)
    requires HeadOk(s.dev) && s.dev.done <= j <= |s.dev.ops|
    ensures IsRun(cfg, s, es)
    ensures var t := Exec(cfg, s, es);
            && Advanced(s, t) && HeadOk(t.dev) && t.dev.done == j
            && (j > s.dev.done || s.dev.blocks == map[] ==> t.dev.blocks == map[])
    decreases j - s.dev.done
  {
    if j == s.dev.done {
      es := [];
    } else {
      var first := DrainOne(cfg, s);
      var t := Exec(cfg, s, first);
      assert t.dev.ops == s.dev.ops;
      hide HeadOk, IsRun, Exec, Advanced;
      var rest := DrainTo(cfg, t, j);
      RunJoin(cfg, s, first, rest);
      AdvancesThrough(s, t, Exec(cfg, t, rest));
      es := first + rest;
    }
  }

  lemma DrainOne(cfg: Config, s: State) returns (es: seq<Event>)
    requires HeadOk(s.dev) && s.dev.done < |s.dev.ops|
    ensures IsRun(cfg, s, es)
    ensures var t := Exec(cfg, s, es);
            Advanced(s, t) && HeadOk(t.dev) && t.dev.done == s.dev.done + 1 && t.dev.blocks == map[]
  {
    if s.dev.ops[s.dev.done].Launch? {
      es := FinishLaunch(cfg, s, 0);
    } else {
      es := [Perform];
      RunOne(cfg, s, Perform);
      DeviceAdvances(cfg, s, Perform);
    }
  }

  // ------------------------------------------------------------------
  // Waiting for a planned step.
  // ------------------------------------------------------------------

  /** A batch of no requests: the smallest the hook plans for. */
  const NO_REQUESTS: Batch := Batch(Some([]), [], None, [], false, 0)

  ghost predicate Fired(s: State) {
    s.current.None? && s.host.pending.Some? && s.host.pending.value.binding.Some?
    && s.dev.done >= s.host.pending.value.event
  }

  /** An off-cadence step passes by: the pending probe stays as it is. */
  lemma PassBy(cfg: Config, s: State)
    requires Fired(s) && !Planned(cfg, s.host)
    ensures IsRun(cfg, s, [BatchBegin(NO_REQUESTS), BatchEnd])
    ensures var t := Exec(cfg, s, [BatchBegin(NO_REQUESTS), BatchEnd]);
            && Fired(t) && t.host.pending == s.host.pending && t.host.folds == s.host.folds
            && t.host.step == s.host.step + 1 && t.dev == s.dev
  {
    BeginExits(cfg, s, NO_REQUESTS);
    var s1 := Step(cfg, s, BatchBegin(NO_REQUESTS));
    hide Begin;
    RunOne(cfg, s1, BatchEnd);
    RunCons(cfg, s, BatchBegin(NO_REQUESTS), [BatchEnd]);
    assert [BatchBegin(NO_REQUESTS)] + [BatchEnd] == [BatchBegin(NO_REQUESTS), BatchEnd];
  }

  /** A planned one folds it. */
  lemma FoldNow(cfg: Config, s: State)
    requires Fired(s) && Planned(cfg, s.host)
    ensures var t := Step(cfg, s, BatchBegin(NO_REQUESTS));
            && |t.host.folds| == |s.host.folds| + 1 && s.host.folds <= t.host.folds
            && t.host.folds[|s.host.folds|].binding == s.host.pending.value.binding.value
            && t.host.folds[|s.host.folds|].log == s.dev.log
            && t.dev.all == s.dev.all
  {
    hide PerRequest, Rows;
    var b := NO_REQUESTS;
    BeginPlans(cfg, s, b);
    var h := Deciding(cfg, s, b);
    assert h.folds[..|s.host.folds|] == s.host.folds;
    hide Begin, Plan, Deciding, Probing;
    var h2, d2 := PlanIsArmed(cfg, h, s.dev, b, s.host.step, Probing(cfg, s.host));
  }

  /** So a probe whose event has fired is folded, with what the rows hold, by the next planned step. */
  lemma {:induction false} FoldNext(cfg: Config, s: State) returns (es: seq<Event>)
    requires Fired(s)
    ensures IsRun(cfg, s, es)
    ensures var t := Exec(cfg, s, es);
            && t.host.folds != [] && t.dev.all == s.dev.all && s.host.folds < t.host.folds
            && t.host.folds[|s.host.folds|].binding == s.host.pending.value.binding.value
            && t.host.folds[|s.host.folds|].log == s.dev.log
    decreases if s.host.step % cfg.planEvery == 0 then 0 else cfg.planEvery - s.host.step % cfg.planEvery
  {
    if Planned(cfg, s.host) {
      es := [BatchBegin(NO_REQUESTS)];
      RunOne(cfg, s, es[0]);
      FoldNow(cfg, s);
    } else {
      var pass := [BatchBegin(NO_REQUESTS), BatchEnd];
      PassBy(cfg, s);
      var t := Exec(cfg, s, pass);
      NextResidue(s.host.step, cfg.planEvery);
      hide IsRun, Exec, Fired, Step;
      var rest := FoldNext(cfg, t);
      RunJoin(cfg, s, pass, rest);
      es := pass + rest;
    }
  }

  lemma NextResidue(n: nat, m: Pos)
    requires n % m != 0
    ensures (n + 1) % m == if n % m + 1 == m then 0 else n % m + 1
  {
    var q := n / m;
    assert n == m * q + n % m;
    if n % m + 1 == m {
      assert n + 1 == m * (q + 1);
      MultipleRemainder(m, q + 1, 0);
    } else {
      MultipleRemainder(m, q, n % m + 1);
    }
  }

  lemma MultipleRemainder(m: Pos, q: nat, r: nat)
    requires r < m
    ensures (m * q + r) % m == r
  {
    var n := m * q + r;
    var p := n / m;
    assert m * p <= n < m * p + m;
    assert m * (p + 1) == m * p + m && m * (q + 1) == m * q + m;
    MulLess(m, p, q + 1);
    MulLess(m, q, p + 1);
  }

  /** The end of a batch with the armed flag up, a drained stream and a planned step: one more fold. */
  lemma EndsInFold(cfg: Config, s: State) returns (es: seq<Event>)
    requires HeadOk(s.dev) && s.current.Some? && s.host.armed && s.host.binding.Some?
    ensures IsRun(cfg, s, es)
    ensures var t := Exec(cfg, s, es);
            && s.host.folds < t.host.folds
            && t.host.folds[|s.host.folds|].binding == s.host.binding.value
            && (ClearFree(s.dev) ==> s.dev.log <= t.host.folds[|s.host.folds|].log)
  {
    var s1 := Step(cfg, s, BatchEnd);
    RunOne(cfg, s, BatchEnd);
    assert HeadOk(s1.dev) && s1.dev.log == s.dev.log && ClearFree(s1.dev) == ClearFree(s.dev);
    var drain := DrainTo(cfg, s1, |s1.dev.ops|);
    var s2 := Exec(cfg, s1, drain);
    assert Fired(s2) && s2.host.pending.value.binding == s.host.binding && s2.host.folds == s.host.folds;
    assert ClearFree(s.dev) ==> s.dev.log <= s2.dev.log;
    hide IsRun, Exec, Step, Enabled, Advanced, HeadOk, ClearFree, Fired;
    var fold := FoldNext(cfg, s2);
    RunJoin(cfg, s1, drain, fold);
    RunJoin(cfg, s, [BatchEnd], drain + fold);
    es := [BatchEnd] + (drain + fold);
  }
}
