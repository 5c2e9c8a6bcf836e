/**
 Every run of a generated launch ends: no fairness, no disjoint stores, and no bound on the
 ticket counter are needed. A ticket that has come round hands out ids again, but every time
 round some claims fail, and each failed claim retires a worker.
 */
module DriverTermination {
  import opened Prelude
  import opened Driver

  function Longest(bodies: seq<seq<Cell>>): (m: nat)
    ensures forall t :: 0 <= t < |bodies| ==> |bodies[t]| <= m
  {
    if bodies == [] then 0
    else
      var rest := Longest(bodies[..|bodies| - 1]);
      var last := |bodies[|bodies| - 1]|;
      if rest < last then last else rest
  }

  /** What a block still has to do before its next claim. */
  function Rank(l: Launch, pc: Pc): nat
    requires l.Valid()
    requires pc.Body? ==> pc.raw < l.n && pc.stores <= |l.bodies[l.task[pc.raw]]|
  {
    match pc
    case Unlaunched => Longest(l.bodies) + 3
    case Body(raw, k) => |l.bodies[l.task[raw]]| - k + 2
    case Claiming => 1
    case _ => 0
  }

  function Ranks(l: Launch, s: State): (rs: seq<nat>)
    requires l.Valid() && Shaped(l, s)
    ensures |rs| == l.blocks && forall b :: 0 <= b < l.blocks ==> rs[b] == Rank(l, s.pcs[b])
  {
    seq(l.blocks, b requires 0 <= b < l.blocks => Rank(l, s.pcs[b]))
  }

  const IsLive: Pc -> bool := (pc: Pc) => !pc.Exited? && !pc.Cancelled?

  function Live(l: Launch, s: State): nat
    requires |s.pcs| == l.blocks
  {
    Sum(Flags(s.pcs, IsLive, l.blocks))
  }

  /** How many more tickets succeed before one fails. */
  function Lucky(l: Launch, s: State): nat {
    if l.mode == Ticket && s.counter < l.n then l.n - s.counter else 0
  }

  function Weigh(n: nat, unit: nat, live: nat, lucky: nat, rank: nat): nat {
    live * ((n + 1) * unit) + lucky * unit + rank
  }

  /** Live workers first, then the tickets until the next failing one, then the work in hand. */
  function Measure(l: Launch, s: State): nat
    requires l.Valid() && Shaped(l, s)
  {
    Weigh(l.n, Longest(l.bodies) + 2, Live(l, s), Lucky(l, s), Sum(Ranks(l, s)))
  }

  lemma MulPred(a: nat, k: nat)
    requires a > 0
    ensures a * k == (a - 1) * k + k
  {
  }

  lemma MulLe(a: nat, b: nat, k: nat)
    requires a <= b
    ensures a * k <= b * k
  {
  }

  lemma WeighWork(n: nat, unit: nat, live: nat, live': nat, lucky: nat, rank: nat, rank': nat)
    requires live' <= live && rank' < rank
    ensures Weigh(n, unit, live', lucky, rank') < Weigh(n, unit, live, lucky, rank)
  {
    MulLe(live', live, (n + 1) * unit);
  }

  lemma WeighTicket(n: nat, unit: nat, live: nat, lucky: nat, rank: nat, rank': nat)
    requires lucky > 0 && rank' < rank + unit
    ensures Weigh(n, unit, live, lucky - 1, rank') < Weigh(n, unit, live, lucky, rank)
  {
    MulPred(lucky, unit);
  }

  lemma WeighFailure(n: nat, unit: nat, live: nat, lucky: nat, lucky': nat, rank: nat, rank': nat)
    requires live > 0 && lucky' <= n && rank' < rank
    ensures Weigh(n, unit, live - 1, lucky', rank') < Weigh(n, unit, live, lucky, rank)
  {
    var k := (n + 1) * unit;
    MulPred(live, k);
    MulPred(n + 1, unit);
    MulLe(lucky', n, unit);
  }

  lemma RanksMove(l: Launch, s: State, e: Event)
    requires l.Valid() && Shaped(l, s) && Enabled(l, s, e)
    ensures var s' := Step(l, s, e);
            Sum(Ranks(l, s')) + Rank(l, s.pcs[e.block])
            + (if e.Take? && e.victim.Some? then Longest(l.bodies) + 3 else 0)
            == Sum(Ranks(l, s)) + Rank(l, s'.pcs[e.block])
  {
    var s' := Step(l, s, e);
    var b := e.block;
    if e.Take? && e.victim.Some? {
      var v := e.victim.value;
      SumUpdate(Ranks(l, s), v, 0);
      SumUpdate(Ranks(l, s)[v := 0], b, Rank(l, s'.pcs[b]));
      assert Ranks(l, s') == Ranks(l, s)[v := 0][b := Rank(l, s'.pcs[b])];
    } else {
      SumUpdate(Ranks(l, s), b, Rank(l, s'.pcs[b]));
      assert Ranks(l, s') == Ranks(l, s)[b := Rank(l, s'.pcs[b])];
    }
  }

  lemma LiveMove(l: Launch, s: State, e: Event)
    requires l.Valid() && Shaped(l, s) && Enabled(l, s, e)
    ensures var s' := Step(l, s, e);
            Live(l, s) == Live(l, s') + (if s'.pcs[e.block].Exited? then 1 else 0)
                          + (if e.Take? && e.victim.Some? then 1 else 0)
  {
    hide Sum, Flags;
    var s' := Step(l, s, e);
    var b := e.block;
    if e.Take? && e.victim.Some? {
      FlagsUpdate(s.pcs, e.victim.value, Cancelled, IsLive, l.blocks);
      FlagsUpdate(s.pcs[e.victim.value := Cancelled], b, s'.pcs[b], IsLive, l.blocks);
    } else {
      FlagsUpdate(s.pcs, b, s'.pcs[b], IsLive, l.blocks);
    }
  }

  lemma TicketSucceeds(l: Launch, s: State, b: nat)
    requires l.Valid() && Shaped(l, s) && Enabled(l, s, Take(b, None)) && l.mode == Ticket && s.counter < l.n
    ensures Measure(l, Step(l, s, Take(b, None))) < Measure(l, s)
  {
    hide Weigh, Live, Ranks, Sum;
    var e := Take(b, None);
    var s' := Step(l, s, e);
    var unit := Longest(l.bodies) + 2;
    RanksMove(l, s, e);
    LiveMove(l, s, e);
    assert s.pcs[b].Claiming? && s'.pcs[b] == Body(s.counter, 0) && Rank(l, s'.pcs[b]) <= unit;
    assert s'.counter == s.counter + 1 && Lucky(l, s') == Lucky(l, s) - 1;
    hide Step, Enabled, Rank, Lucky, Longest;
    WeighTicket(l.n, unit, Live(l, s), Lucky(l, s), Sum(Ranks(l, s)), Sum(Ranks(l, s')));
  }

  lemma TicketFails(l: Launch, s: State, b: nat)
    requires l.Valid() && Shaped(l, s) && Enabled(l, s, Take(b, None)) && l.mode == Ticket && s.counter >= l.n
    ensures Measure(l, Step(l, s, Take(b, None))) < Measure(l, s)
  {
    hide Weigh, Live, Ranks, Sum;
    var e := Take(b, None);
    var s' := Step(l, s, e);
    RanksMove(l, s, e);
    LiveMove(l, s, e);
    assert s.pcs[b].Claiming? && s'.pcs[b].Exited? && Lucky(l, s') <= l.n;
    assert Rank(l, s'.pcs[b]) < Rank(l, s.pcs[b]);
    hide Step, Enabled, Rank, Lucky, Longest;
    WeighFailure(l.n, Longest(l.bodies) + 2, Live(l, s), Lucky(l, s), Lucky(l, s'),
                 Sum(Ranks(l, s)), Sum(Ranks(l, s')));
  }

  /** A launch, a store, the end of a body or a steal leaves less to do in its block. */
  lemma WorkDecreases(l: Launch, s: State, e: Event)
    requires l.Valid() && Shaped(l, s) && Enabled(l, s, e) && !(e.Take? && l.mode == Ticket)
    ensures Measure(l, Step(l, s, e)) < Measure(l, s)
  {
    hide Weigh, Live, Ranks, Sum;
    var s' := Step(l, s, e);
    RanksMove(l, s, e);
    LiveMove(l, s, e);
    assert Rank(l, s'.pcs[e.block]) < Rank(l, s.pcs[e.block])
           + if e.Take? && e.victim.Some? then Longest(l.bodies) + 3 else 0;
    assert Lucky(l, s') == Lucky(l, s);
    hide Step, Enabled, Rank, Lucky, Longest;
    WeighWork(l.n, Longest(l.bodies) + 2, Live(l, s), Live(l, s'), Lucky(l, s), Sum(Ranks(l, s)), Sum(Ranks(l, s')));
  }

  /** Every step of every run strictly decreases the measure, past the wrap-around as well. */
  lemma MeasureDecreases(l: Launch, s: State, e: Event)
    requires l.Valid() && Shaped(l, s) && Enabled(l, s, e)
    ensures Measure(l, Step(l, s, e)) < Measure(l, s)
  {
    if e.Take? && l.mode == Ticket {
      hide Measure, Step;
      if s.counter < l.n {
        TicketSucceeds(l, s, e.block);
      } else {
        TicketFails(l, s, e.block);
      }
    } else {
      hide Measure, Step, Enabled;
      WorkDecreases(l, s, e);
    }
  }

  /** So a run from s has at most Measure(s) steps, whatever the interleaving. */
  lemma {:induction false} RunsTerminate(l: Launch, s: State, es: seq<Event>)
    requires l.Valid() && Shaped(l, s) && IsRun(l, s, es)
    ensures |es| + Measure(l, Exec(l, s, es)) <= Measure(l, s)
    decreases |es|
  {
    if es != [] {
      MeasureDecreases(l, s, es[0]);
      hide Step, Enabled, Measure;
      RunsTerminate(l, Step(l, s, es[0]), es[1..]);
    }
  }

  /** A state that is not quiescent can always take a step: no run gets stuck early. */
  lemma Progresses(l: Launch, s: State) returns (e: Event)
    requires l.Valid() && Shaped(l, s) && !Quiescent(s) && Placed(l, s)
    ensures Enabled(l, s, e)
  {
    var b :| 0 <= b < l.blocks && !s.pcs[b].Exited? && !s.pcs[b].Cancelled?;
    match s.pcs[b]
    case Unlaunched => e := Start(b);
    case Body(raw, k) => e := if k < |l.bodies[l.task[raw]]| then Write(b) else Finish(b, 0);
    case Claiming => e := Take(b, None);
  }

  lemma RunCons(l: Launch, s: State, e: Event, fs: seq<Event>)
    requires l.Valid() && Shaped(l, s) && Enabled(l, s, e) && IsRun(l, Step(l, s, e), fs)
    ensures IsRun(l, s, [e] + fs) && Exec(l, s, [e] + fs) == Exec(l, Step(l, s, e), fs)
  {
    hide Step, Enabled;
    assert ([e] + fs)[1..] == fs && ([e] + fs)[0] == e;
  }

  lemma {:induction false} Completion(l: Launch, s: State) returns (fs: seq<Event>)
    requires l.Valid() && Shaped(l, s) && Placed(l, s)
    ensures IsRun(l, s, fs) && Quiescent(Exec(l, s, fs))
    decreases Measure(l, s)
  {
    if Quiescent(s) {
      fs := [];
    } else {
      var e := Progresses(l, s);
      MeasureDecreases(l, s, e);
      PlacedStep(l, s, e);
      hide Step, Enabled, Placed, Measure, Quiescent;
      var rest := Completion(l, Step(l, s, e));
      RunCons(l, s, e, rest);
      fs := [e] + rest;
    }
  }

  lemma {:induction false} Extension(l: Launch, s: State, es: seq<Event>) returns (gs: seq<Event>)
    requires l.Valid() && Shaped(l, s) && IsRun(l, s, es) && Placed(l, s)
    ensures es <= gs && IsRun(l, s, gs) && Quiescent(Exec(l, s, gs))
    decreases |es|
  {
    if es == [] {
      gs := Completion(l, s);
    } else {
      PlacedStep(l, s, es[0]);
      hide Step, Enabled, Placed, Quiescent;
      var rest := Extension(l, Step(l, s, es[0]), es[1..]);
      RunCons(l, s, es[0], rest);
      gs := [es[0]] + rest;
    }
  }

  /** Every run, however far it has got, can be completed: no interleaving paints itself into a corner. */
  lemma RunsComplete(l: Launch, mem: map<nat, int>, rows: seq<nat>, es: seq<Event>) returns (gs: seq<Event>)
    requires l.Valid() && IsRun(l, Init(l, mem, rows), es)
    ensures es <= gs && Completes(l, mem, rows, gs)
  {
    gs := Extension(l, Init(l, mem, rows), es);
  }
}
