/**
 Ticket launches with a clock. Workers start at time 0, a body takes its task's cost, and a block
 claims the moment it is free; events happen in time order, ties in any order. The ticket order
 that list scheduling needs is derived from such runs, and with it the bound on their length.
 */
module TimedRuns {
  import opened Prelude
  import opened Driver
  import opened DriverRuns
  import DriverTermination
  import opened ListScheduling

  /** at[b] is when block b began its present body, or became free. */
  datatype Timed = Timed(s: State, at: seq<nat>)

  ghost predicate Launchable(l: Launch, cost: seq<nat>) {
    l.Valid() && l.mode == Ticket && l.blocks + l.n <= U32 && |cost| == l.n
  }

  ghost predicate Fits(l: Launch, t: Timed)
    requires l.Valid()
  {
    Shaped(l, t.s) && |t.at| == l.blocks
  }

  ghost predicate EnabledAt(l: Launch, cost: seq<nat>, t: Timed, e: Event, time: nat)
    requires Launchable(l, cost) && Fits(l, t)
  {
    && Enabled(l, t.s, e)
    && match e
       case Start(b) => time == 0
       case Write(b) => true
       case Finish(b, span) =>
         span == cost[l.task[t.s.pcs[b].raw]] && time == t.at[b] + span
       case Take(b, _) => time == t.at[b]
  }

  ghost function StepAt(l: Launch, cost: seq<nat>, t: Timed, e: Event, time: nat): (t': Timed)
    requires Launchable(l, cost) && Fits(l, t) && EnabledAt(l, cost, t, e, time)
    ensures Fits(l, t')
  {
    Timed(Step(l, t.s, e), if e.Write? then t.at else t.at[e.block := time])
  }

  /** An event and when it happens. */
  datatype Tick = Tick(event: Event, time: nat)

  ghost predicate IsTimedRun(l: Launch, cost: seq<nat>, t: Timed, now: nat, ks: seq<Tick>)
    requires Launchable(l, cost) && Fits(l, t)
    decreases |ks|
  {
    ks == [] || (&& now <= ks[0].time && EnabledAt(l, cost, t, ks[0].event, ks[0].time)
                 && IsTimedRun(l, cost, StepAt(l, cost, t, ks[0].event, ks[0].time), ks[0].time, ks[1..]))
  }

  ghost function ExecTimed(l: Launch, cost: seq<nat>, t: Timed, now: nat, ks: seq<Tick>): (t': Timed)
    requires Launchable(l, cost) && Fits(l, t) && IsTimedRun(l, cost, t, now, ks)
    ensures Fits(l, t')
    decreases |ks|
  {
    if ks == [] then t
    else ExecTimed(l, cost, StepAt(l, cost, t, ks[0].event, ks[0].time), ks[0].time, ks[1..])
  }

  function Begun(l: Launch, mem: map<nat, int>, rows: seq<nat>): Timed {
    Timed(Init(l, mem, rows), seq(l.blocks, _ => 0))
  }

  // ------------------------------------------------------------------
  // Who serves which raw id.
  // ------------------------------------------------------------------

  function Worker(l: Launch, s: State, k: nat): nat
    requires k < l.blocks + |s.claims|
  {
    if k < l.blocks then k else s.claims[k - l.blocks].block
  }

  /** The worker of each raw id handed out so far: a worker's own id first, then the tickets. */
  function Who(l: Launch, s: State): (who: seq<nat>)
    ensures |who| == Min(l.n, l.blocks + |s.claims|)
    ensures forall k :: 0 <= k < |who| ==> who[k] == Worker(l, s, k)
  {
    seq(Min(l.n, l.blocks + |s.claims|), k requires 0 <= k < l.blocks + |s.claims| => Worker(l, s, k))
  }

  /** When a block will next be free. */
  function FreeAt(l: Launch, cost: seq<nat>, t: Timed, b: nat): nat
    requires |l.task| == l.n == |cost| && (forall k :: 0 <= k < l.n ==> l.task[k] < l.n)
    requires b < |t.s.pcs| == |t.at| && (t.s.pcs[b].Body? ==> t.s.pcs[b].raw < l.n)
  {
    match t.s.pcs[b]
    case Unlaunched => if b < l.n then cost[l.task[b]] else 0
    case Body(raw, _) => t.at[b] + cost[l.task[raw]]
    case _ => t.at[b]
  }

  ghost function Costs(l: Launch, cost: seq<nat>): (c: seq<nat>)
    requires Launchable(l, cost)
    ensures |c| == l.n && forall k :: 0 <= k < l.n ==> c[k] == cost[l.task[k]]
  {
    Claimed(cost, l.task)
  }

  /** Claims so far were in time order and none is later than now; the first workers claimed at 0. */
  ghost predicate InOrder(c: seq<nat>, who: seq<nat>, m: nat, now: nat)
    requires |c| == |who| && Assigns(who, m)
  {
    && (forall k :: 0 <= k < |who| ==> ClaimTime(c, who, m, k) <= now)
    && (forall k :: 0 <= k < |who| && k < m ==> ClaimTime(c, who, m, k) == 0)
    && (forall j, k :: 0 <= j < k < |who| ==> ClaimTime(c, who, m, j) <= ClaimTime(c, who, m, k))
  }

  /** Every claim was made by the time tau. */
  ghost predicate ClaimedBy(c: seq<nat>, who: seq<nat>, m: nat, tau: nat)
    requires |c| == |who| && Assigns(who, m)
  {
    forall k :: 0 <= k < |who| ==> ClaimTime(c, who, m, k) <= tau
  }

  /** Loads are what the clock says, and a worker gives up only after the last claim. */
  ghost predicate Clocked(l: Launch, cost: seq<nat>, t: Timed, now: nat)
    requires Launchable(l, cost) && Fits(l, t)
  {
    var who := Who(l, t.s);
    var c := Costs(l, cost)[..|who|];
    && Assigns(who, l.blocks) && InOrder(c, who, l.blocks, now)
    && (forall b :: 0 <= b < l.blocks ==> Loads(c, who, l.blocks)[b] == FreeAt(l, cost, t, b))
    && (forall b :: 0 <= b < l.blocks && t.s.pcs[b].Exited? ==>
          |who| == l.n && ClaimedBy(c, who, l.blocks, t.at[b]))
  }

  lemma {:induction false} FirstLoads(c: seq<nat>, m: nat, k: nat)
    requires k <= |c| && k <= m
    ensures Assigns(Identity(k), m)
    ensures forall b :: 0 <= b < m ==> Loads(c[..k], Identity(k), m)[b] == if b < k then c[b] else 0
  {
    if k > 0 {
      FirstLoads(c, m, k - 1);
      assert Identity(k)[..k - 1] == Identity(k - 1) && c[..k][..k - 1] == c[..k - 1];
    }
  }

  lemma InitClocked(l: Launch, cost: seq<nat>, mem: map<nat, int>, rows: seq<nat>)
    requires Launchable(l, cost)
    ensures Clocked(l, cost, Begun(l, mem, rows), 0)
  {
    var t := Begun(l, mem, rows);
    var who := Who(l, t.s);
    var k := |who|;
    var c := Costs(l, cost);
    assert who == Identity(k);
    FirstLoads(c, l.blocks, k);
    forall j | 0 <= j < k ensures ClaimTime(c[..k], who, l.blocks, j) == 0 {
      FirstLoads(c, l.blocks, j);
      assert c[..k][..j] == c[..j] && who[..j] == Identity(j);
    }
  }

  // ------------------------------------------------------------------
  // One event.
  // ------------------------------------------------------------------

  lemma ClockedQuiet(l: Launch, cost: seq<nat>, t: Timed, now: nat, e: Event, time: nat)
    requires Launchable(l, cost) && Fits(l, t) && EnabledAt(l, cost, t, e, time) && now <= time
    requires Clocked(l, cost, t, now) && !e.Take?
    ensures Clocked(l, cost, StepAt(l, cost, t, e, time), time)
  {
    hide Loads, Costs;
    var t' := StepAt(l, cost, t, e, time);
    assert Who(l, t'.s) == Who(l, t.s);
    hide Who;
    forall b | 0 <= b < l.blocks ensures FreeAt(l, cost, t', b) == FreeAt(l, cost, t, b) {
    }
    hide Step, Enabled, ClaimTime;
  }

  lemma PrefixClaimTime(c: seq<nat>, who: seq<nat>, m: nat, j: nat, k: nat)
    requires |c| == |who| && Assigns(who, m) && k < j <= |who|
    ensures Assigns(who[..j], m) && ClaimTime(c[..j], who[..j], m, k) == ClaimTime(c, who, m, k)
  {
    assert c[..j][..k] == c[..k] && who[..j][..k] == who[..k];
  }

  /** One more claim, at time, by a worker whose load ends then. */
  lemma OneMoreClaim(c: seq<nat>, who: seq<nat>, m: nat, cost: nat, b: nat)
    requires |c| == |who| && Assigns(who, m) && b < m
    ensures Assigns(who + [b], m)
    ensures var before := Loads(c, who, m);
            && Loads(c + [cost], who + [b], m) == before[b := before[b] + cost]
            && ClaimTime(c + [cost], who + [b], m, |who|) == before[b]
    ensures forall k :: 0 <= k < |who| ==> ClaimTime(c + [cost], who + [b], m, k) == ClaimTime(c, who, m, k)
  {
    var n := |who|;
    var c', who' := c + [cost], who + [b];
    assert c'[..n] == c && who'[..n] == who && c'[..n + 1] == c' && who'[..n + 1] == who';
    LoadsStep(c', who', m, n);
    hide Loads;
    forall k | 0 <= k < n ensures ClaimTime(c', who', m, k) == ClaimTime(c, who, m, k) {
      PrefixClaimTime(c', who', m, n, k);
    }
  }

  lemma StaysInOrder(c: seq<nat>, who: seq<nat>, m: nat, cost: nat, b: nat, now: nat, time: nat)
    requires |c| == |who| && Assigns(who, m) && b < m && m <= |who|
    requires InOrder(c, who, m, now) && now <= time == Loads(c, who, m)[b]
    ensures Assigns(who + [b], m) && InOrder(c + [cost], who + [b], m, time)
  {
    OneMoreClaim(c, who, m, cost, b);
    hide Loads, ClaimTime;
  }

  lemma WhoGrows(l: Launch, cost: seq<nat>, s: State, b: nat)
    requires Launchable(l, cost) && Shaped(l, s) && Enabled(l, s, Take(b, None))
    requires s.counter == l.blocks + |s.claims| < l.n
    ensures var s' := Step(l, s, Take(b, None));
            && |Who(l, s)| == s.counter && Who(l, s') == Who(l, s) + [b]
            && Costs(l, cost)[..s.counter + 1] == Costs(l, cost)[..s.counter] + [cost[l.task[s.counter]]]
  {
    var s' := Step(l, s, Take(b, None));
    assert s'.claims == s.claims + [Claim(b, Some(s.counter))];
    hide Costs;
    forall k | 0 <= k < s.counter ensures Worker(l, s', k) == Worker(l, s, k) {
    }
  }

  /** A successful ticket: its raw id is handed out at the moment its worker became free. */
  lemma ClockedTicket(l: Launch, cost: seq<nat>, t: Timed, now: nat, b: nat, time: nat)
    requires Launchable(l, cost) && Fits(l, t) && EnabledAt(l, cost, t, Take(b, None), time) && now <= time
    requires Clocked(l, cost, t, now) && t.s.counter == l.blocks + |t.s.claims| < l.n
    ensures Clocked(l, cost, StepAt(l, cost, t, Take(b, None), time), time)
  {
    hide Loads, Costs, Who, ClaimTime;
    var t' := StepAt(l, cost, t, Take(b, None), time);
    var n := t.s.counter;
    WhoGrows(l, cost, t.s, b);
    var c, who := Costs(l, cost)[..n], Who(l, t.s);
    StaysInOrder(c, who, l.blocks, cost[l.task[n]], b, now, time);
    OneMoreClaim(c, who, l.blocks, cost[l.task[n]], b);
    assert t'.s.pcs == t.s.pcs[b := Body(n, 0)] && t'.at == t.at[b := time];
    hide InOrder, Step, Enabled;
    forall d | 0 <= d < l.blocks
      ensures FreeAt(l, cost, t', d) == if d == b then time + cost[l.task[n]] else FreeAt(l, cost, t, d)
      ensures !t'.s.pcs[d].Exited?
    {
    }
  }

  /** A failing ticket: everything has been handed out, at or before now. */
  lemma ClockedFailure(l: Launch, cost: seq<nat>, t: Timed, now: nat, b: nat, time: nat)
    requires Launchable(l, cost) && Fits(l, t) && EnabledAt(l, cost, t, Take(b, None), time) && now <= time
    requires Clocked(l, cost, t, now) && t.s.counter == l.blocks + |t.s.claims| >= l.n
    ensures Clocked(l, cost, StepAt(l, cost, t, Take(b, None), time), time)
  {
    var t' := StepAt(l, cost, t, Take(b, None), time);
    assert Who(l, t'.s) == Who(l, t.s);
    forall d | 0 <= d < l.blocks ensures FreeAt(l, cost, t', d) == FreeAt(l, cost, t, d) {
    }
    hide Loads, Costs, Who;
  }

  lemma ClockedStep(l: Launch, cost: seq<nat>, t: Timed, now: nat, e: Event, time: nat)
    requires Launchable(l, cost) && Fits(l, t) && EnabledAt(l, cost, t, e, time) && now <= time
    requires Protocol(l, t.s) && Clocked(l, cost, t, now)
    ensures Clocked(l, cost, StepAt(l, cost, t, e, time), time)
  {
    if e.Take? {
      TicketUnwrapped(l, t.s, e.block);
      hide Clocked, StepAt, Protocol;
      if t.s.counter < l.n {
        ClockedTicket(l, cost, t, now, e.block, time);
      } else {
        ClockedFailure(l, cost, t, now, e.block, time);
      }
    } else {
      hide Clocked, StepAt, Protocol;
      ClockedQuiet(l, cost, t, now, e, time);
    }
  }

  // ------------------------------------------------------------------
  // Whole runs.
  // ------------------------------------------------------------------

  lemma {:induction false} ClockedRun(l: Launch, cost: seq<nat>, t: Timed, now: nat, ks: seq<Tick>) returns (end: nat)
    requires Launchable(l, cost) && Fits(l, t) && IsTimedRun(l, cost, t, now, ks)
    requires Protocol(l, t.s) && Clocked(l, cost, t, now)
    ensures Protocol(l, ExecTimed(l, cost, t, now, ks).s) && Clocked(l, cost, ExecTimed(l, cost, t, now, ks), end)
    decreases |ks|
  {
    if ks == [] {
      end := now;
    } else {
      var e, time := ks[0].event, ks[0].time;
      ClockedStep(l, cost, t, now, e, time);
      ProtocolNext(l, t.s, e);
      var t1 := StepAt(l, cost, t, e, time);
      assert t1.s == Step(l, t.s, e);
      hide Clocked, StepAt, Protocol, EnabledAt;
      end := ClockedRun(l, cost, t1, time, ks[1..]);
    }
  }

  lemma TimedEnd(l: Launch, cost: seq<nat>, mem: map<nat, int>, rows: seq<nat>, ks: seq<Tick>) returns (end: nat)
    requires Launchable(l, cost) && IsTimedRun(l, cost, Begun(l, mem, rows), 0, ks)
    ensures var t := ExecTimed(l, cost, Begun(l, mem, rows), 0, ks);
            Protocol(l, t.s) && Clocked(l, cost, t, end)
  {
    InitProtocol(l, mem, rows);
    InitClocked(l, cost, mem, rows);
    hide Protocol, Clocked, IsTimedRun, ExecTimed;
    end := ClockedRun(l, cost, Begun(l, mem, rows), 0, ks);
  }

  lemma AtTheEnd(l: Launch, cost: seq<nat>, t: Timed, now: nat)
    requires Launchable(l, cost) && Fits(l, t) && Quiescent(t.s) && Protocol(l, t.s) && Clocked(l, cost, t, now)
    ensures var who := Who(l, t.s);
            && |who| == l.n && Assigns(who, l.blocks) && TicketOrder(Costs(l, cost), who, l.blocks)
            && t.at == Loads(Costs(l, cost), who, l.blocks)
  {
    assert t.s.pcs[0].Exited?;
    assert forall b :: 0 <= b < l.blocks ==> t.s.pcs[b].Exited?;
    var who := Who(l, t.s);
    assert Costs(l, cost)[..l.n] == Costs(l, cost);
    hide Protocol, Loads, Costs, Who, ClaimTime;
  }

  /**
   Every complete timed run is ticket-ordered list scheduling: its claims are in time order, no
   worker gives up before the last of them, and it lasts as long as the makespan of its assignment.
   */
  lemma TimedIsTicketOrder(l: Launch, cost: seq<nat>, mem: map<nat, int>, rows: seq<nat>, ks: seq<Tick>)
    requires Launchable(l, cost) && IsTimedRun(l, cost, Begun(l, mem, rows), 0, ks)
    requires Quiescent(ExecTimed(l, cost, Begun(l, mem, rows), 0, ks).s)
    ensures var t := ExecTimed(l, cost, Begun(l, mem, rows), 0, ks);
            var who := Who(l, t.s);
            && |who| == l.n && Assigns(who, l.blocks) && TicketOrder(Costs(l, cost), who, l.blocks)
            && t.at == Loads(Costs(l, cost), who, l.blocks)
  {
    hide ExecTimed, IsTimedRun, Protocol, Clocked, Quiescent, TicketOrder, Who, Loads, Costs;
    var end := TimedEnd(l, cost, mem, rows, ks);
    AtTheEnd(l, cost, ExecTimed(l, cost, Begun(l, mem, rows), 0, ks), end);
  }

  lemma OrderWithinFactor(cost: seq<nat>, task: seq<nat>, who: seq<nat>, other: seq<nat>, m: nat, at: seq<nat>)
    requires m > 0 && IsPerm(task, |cost|) && |who| == |other| == |cost|
    requires Assigns(who, m) && Assigns(other, m) && TicketOrder(Claimed(cost, task), who, m)
    requires at == Loads(Claimed(cost, task), who, m)
    ensures m * Largest(at) <= (2 * m - 1) * Makespan(cost, other, m)
  {
    ClaimsWithinFactor(cost, task, who, other, m);
  }

  lemma EndWithinFactor(l: Launch, cost: seq<nat>, t: Timed, now: nat, other: seq<nat>)
    requires Launchable(l, cost) && Fits(l, t) && Quiescent(t.s) && Protocol(l, t.s) && Clocked(l, cost, t, now)
    requires |other| == l.n && Assigns(other, l.blocks)
    ensures l.blocks * Largest(t.at) <= (2 * l.blocks - 1) * Makespan(cost, other, l.blocks)
  {
    hide Protocol, Clocked, Quiescent, Claimed, Who, Loads, TicketOrder, Largest, Makespan;
    AtTheEnd(l, cost, t, now);
    OrderWithinFactor(cost, l.task, Who(l, t.s), other, l.blocks, t.at);
  }

  /**
   So for every launch, order table and task costs, m times the length of any timed run on m workers
   is at most 2m - 1 times the makespan of any assignment of the tasks to m workers.
   */
  lemma TimedRunWithinFactor(l: Launch, cost: seq<nat>, mem: map<nat, int>, rows: seq<nat>, ks: seq<Tick>,
                             other: seq<nat>)
    requires Launchable(l, cost) && IsTimedRun(l, cost, Begun(l, mem, rows), 0, ks)
    requires Quiescent(ExecTimed(l, cost, Begun(l, mem, rows), 0, ks).s)
    requires |other| == l.n && Assigns(other, l.blocks)
    ensures l.blocks * Largest(ExecTimed(l, cost, Begun(l, mem, rows), 0, ks).at)
            <= (2 * l.blocks - 1) * Makespan(cost, other, l.blocks)
  {
    hide ExecTimed, IsTimedRun, Protocol, Clocked, Quiescent, Largest, Makespan;
    var end := TimedEnd(l, cost, mem, rows, ks);
    EndWithinFactor(l, cost, ExecTimed(l, cost, Begun(l, mem, rows), 0, ks), end, other);
  }

  // ------------------------------------------------------------------
  // There is such a run.
  // ------------------------------------------------------------------

  predicate IsLive(pc: Pc) {
    !pc.Exited? && !pc.Cancelled?
  }

  /** When a live block is due for its next start, end of body or claim. */
  function Due(l: Launch, cost: seq<nat>, t: Timed, b: nat): nat
    requires |l.task| == l.n == |cost| && (forall k :: 0 <= k < l.n ==> l.task[k] < l.n)
    requires b < |t.s.pcs| == |t.at| && (t.s.pcs[b].Body? ==> t.s.pcs[b].raw < l.n)
  {
    match t.s.pcs[b]
    case Unlaunched => 0
    case Body(raw, _) => t.at[b] + cost[l.task[raw]]
    case _ => t.at[b]
  }

  /** Nobody is overdue. */
  ghost predicate Punctual(l: Launch, cost: seq<nat>, t: Timed, now: nat)
    requires Launchable(l, cost) && Fits(l, t)
  {
    forall b :: 0 <= b < l.blocks && IsLive(t.s.pcs[b]) ==> now <= Due(l, cost, t, b)
  }

  lemma {:induction false} Soonest(l: Launch, cost: seq<nat>, t: Timed, n: nat, some: nat) returns (b: nat)
    requires Launchable(l, cost) && Fits(l, t) && some < n <= l.blocks && IsLive(t.s.pcs[some])
    ensures b < n && IsLive(t.s.pcs[b])
    ensures forall d :: 0 <= d < n && IsLive(t.s.pcs[d]) ==> Due(l, cost, t, b) <= Due(l, cost, t, d)
    decreases n
  {
    if c :| 0 <= c < n - 1 && IsLive(t.s.pcs[c]) {
      b := Soonest(l, cost, t, n - 1, c);
      if IsLive(t.s.pcs[n - 1]) && Due(l, cost, t, n - 1) < Due(l, cost, t, b) {
        b := n - 1;
      }
    } else {
      b := some;
    }
  }

  /** What the block that is due first does next, and when. */
  function NextTick(l: Launch, cost: seq<nat>, t: Timed, now: nat, b: nat): Tick
    requires |l.task| == l.n == |cost| == |l.bodies| && (forall k :: 0 <= k < l.n ==> l.task[k] < l.n)
    requires b < |t.s.pcs| == |t.at| && (t.s.pcs[b].Body? ==> t.s.pcs[b].raw < l.n)
  {
    match t.s.pcs[b]
    case Unlaunched => Tick(Start(b), 0)
    case Body(raw, k) =>
      if k < |l.bodies[l.task[raw]]| then Tick(Write(b), now)
      else Tick(Finish(b, cost[l.task[raw]]), t.at[b] + cost[l.task[raw]])
    case _ => Tick(Take(b, None), t.at[b])
  }

  lemma NextIsPunctual(l: Launch, cost: seq<nat>, t: Timed, now: nat, b: nat)
    requires Launchable(l, cost) && Fits(l, t) && Punctual(l, cost, t, now)
    requires b < l.blocks && IsLive(t.s.pcs[b])
    requires forall d :: 0 <= d < l.blocks && IsLive(t.s.pcs[d]) ==> Due(l, cost, t, b) <= Due(l, cost, t, d)
    ensures var Tick(e, time) := NextTick(l, cost, t, now, b);
            && now <= time && EnabledAt(l, cost, t, e, time)
            && Punctual(l, cost, StepAt(l, cost, t, e, time), time)
  {
  }

  lemma {:induction false} TimedCompletion(l: Launch, cost: seq<nat>, t: Timed, now: nat) returns (ks: seq<Tick>)
    requires Launchable(l, cost) && Fits(l, t) && Punctual(l, cost, t, now)
    ensures IsTimedRun(l, cost, t, now, ks) && Quiescent(ExecTimed(l, cost, t, now, ks).s)
    decreases DriverTermination.Measure(l, t.s)
  {
    if Quiescent(t.s) {
      ks := [];
    } else {
      var some :| 0 <= some < l.blocks && IsLive(t.s.pcs[some]);
      var b := Soonest(l, cost, t, l.blocks, some);
      NextIsPunctual(l, cost, t, now, b);
      var k := NextTick(l, cost, t, now, b);
      DriverTermination.MeasureDecreases(l, t.s, k.event);
      var t1 := StepAt(l, cost, t, k.event, k.time);
      assert t1.s == Step(l, t.s, k.event);
      hide Punctual, StepAt, EnabledAt, NextTick, DriverTermination.Measure, Quiescent, Step;
      var rest := TimedCompletion(l, cost, t1, k.time);
      ks := [k] + rest;
      assert ks[1..] == rest;
    }
  }

  /** Every launch has a complete timed run, whatever its tasks cost and whatever its order table. */
  lemma TimedRunExists(l: Launch, cost: seq<nat>, mem: map<nat, int>, rows: seq<nat>) returns (ks: seq<Tick>)
    requires Launchable(l, cost)
    ensures IsTimedRun(l, cost, Begun(l, mem, rows), 0, ks)
    ensures Quiescent(ExecTimed(l, cost, Begun(l, mem, rows), 0, ks).s)
  {
    ks := TimedCompletion(l, cost, Begun(l, mem, rows), 0);
  }
}
