/**
 The launch that the work-queue pass generates, as atomic steps of many blocks.

 A block is launched by the hardware, runs the task body store by store, and then
 either exits (static launch), takes a ticket, or steals a block that has not been
 launched yet. The order snapshot is frozen for the launch: task[raw] is the task
 that raw id raw serves.
 */
module Driver {
  import opened Prelude

  datatype Mode = Static | Ticket | Clc

  datatype Cell = Cell(address: nat, value: int)

  /** bodies[t] are the stores of task t; row[t] is the timer row its duration goes to. */
  datatype Launch = Launch(mode: Mode, blocks: nat, n: nat, task: seq<nat>,
                           bodies: seq<seq<Cell>>, row: seq<nat>, timerOn: bool)
  {
    ghost predicate Valid() {
      && IsPerm(task, n)
      && |bodies| == n && |row| == n
      && n < U32 && blocks < U32
      && (mode == Static ==> blocks == n)
      && (mode == Ticket ==> blocks > 0)
    }

    /** How many raw ids the launch can ever hand out. */
    function Reach(): nat {
      if mode == Ticket || n <= blocks then n else blocks
    }
  }

  datatype Pc = Unlaunched | Cancelled | Body(raw: nat, stores: nat) | Claiming | Exited

  /** One claim: who issued it and the raw id it returned (None: the hardware had none left). */
  datatype Claim = Claim(block: nat, got: Option<nat>)

  datatype State = State(pcs: seq<Pc>, counter: nat, claims: seq<Claim>, served: seq<nat>,
                         prog: seq<nat>, mem: map<nat, int>, rows: seq<nat>, cycles: map<nat, nat>)

  datatype Event =
    | Start(block: nat)
    | Write(block: nat)
    | Finish(block: nat, span: nat)
    | Take(block: nat, victim: Option<nat>)

  /** The counter is primed to the number of launched workers. */
  function Init(l: Launch, mem: map<nat, int>, rows: seq<nat>): (s: State) {
    State(seq(l.blocks, _ => Unlaunched), l.blocks, [], [], seq(l.n, _ => 0), mem, rows, map[])
  }

  function Begin(l: Launch, raw: nat): Pc {
    if raw < l.n then Body(raw, 0) else Exited
  }

  ghost predicate Shaped(l: Launch, s: State)
    requires l.Valid()
  {
    && |s.pcs| == l.blocks && |s.prog| == l.n
    && forall b :: 0 <= b < l.blocks && s.pcs[b].Body? ==>
         s.pcs[b].raw < l.n && s.pcs[b].stores <= |l.bodies[l.task[s.pcs[b].raw]]|
  }

  ghost predicate Enabled(l: Launch, s: State, e: Event)
    requires l.Valid() && Shaped(l, s)
  {
    && e.block < l.blocks
    && match e
       case Start(b) => s.pcs[b].Unlaunched?
       case Write(b) => s.pcs[b].Body? && s.pcs[b].stores < |l.bodies[l.task[s.pcs[b].raw]]|
       case Finish(b, span) =>
         s.pcs[b].Body? && s.pcs[b].stores == |l.bodies[l.task[s.pcs[b].raw]]|
       case Take(b, victim) =>
         && s.pcs[b].Claiming? && l.mode != Static
         && (l.mode == Ticket ==> victim == None)
         && (victim.Some? ==> victim.value < l.blocks && s.pcs[victim.value].Unlaunched?)
  }

  function AddCycles(l: Launch, rows: seq<nat>, task: nat, span: nat): seq<nat>
    requires task < |l.row|
  {
    var r := l.row[task];
    if l.timerOn && r < |rows| then rows[r := (rows[r] + span) % U64] else rows
  }

  function Step(l: Launch, s: State, e: Event): (s': State)
    requires l.Valid() && Shaped(l, s) && Enabled(l, s, e)
    ensures Shaped(l, s')
  {
    match e
    case Start(b) => s.(pcs := s.pcs[b := Begin(l, b)])
    case Write(b) =>
      var Body(raw, k) := s.pcs[b];
      var t := l.task[raw];
      var c := l.bodies[t][k];
      s.(pcs := s.pcs[b := Body(raw, k + 1)],
         prog := s.prog[t := k + 1],
         mem := s.mem[c.address := c.value])
    case Finish(b, span) =>
      var raw := s.pcs[b].raw;
      var t := l.task[raw];
      s.(pcs := s.pcs[b := if l.mode == Static then Exited else Claiming],
         served := s.served + [raw],
         rows := AddCycles(l, s.rows, t, span),
         cycles := s.cycles[t := span])
    case Take(b, victim) =>
      if l.mode == Ticket then
        var ticket := s.counter;
        s.(pcs := s.pcs[b := Begin(l, ticket)],
           counter := (s.counter + 1) % U32,
           claims := s.claims + [Claim(b, Some(ticket))])
      else if victim.Some? then
        s.(pcs := s.pcs[victim.value := Cancelled][b := Begin(l, victim.value)],
           claims := s.claims + [Claim(b, victim)])
      else
        s.(pcs := s.pcs[b := Exited], claims := s.claims + [Claim(b, None)])
  }

  /** A run is any list of enabled events: every interleaving of the blocks' steps. */
  ghost predicate IsRun(l: Launch, s: State, es: seq<Event>)
    requires l.Valid() && Shaped(l, s)
    decreases |es|
  {
    es == [] || (Enabled(l, s, es[0]) && IsRun(l, Step(l, s, es[0]), es[1..]))
  }

  ghost function Exec(l: Launch, s: State, es: seq<Event>): (s': State)
    requires l.Valid() && Shaped(l, s) && IsRun(l, s, es)
    ensures Shaped(l, s')
    decreases |es|
  {
    if es == [] then s else Exec(l, Step(l, s, es[0]), es[1..])
  }

  /** Nothing is left to run: every block has exited or was stolen before it was launched. */
  ghost predicate Quiescent(s: State) {
    forall b :: 0 <= b < |s.pcs| ==> s.pcs[b].Exited? || s.pcs[b].Cancelled?
  }

  /** The state a run of the launch ends in. */
  ghost function Outcome(l: Launch, mem: map<nat, int>, rows: seq<nat>, es: seq<Event>): (s: State)
    requires l.Valid() && IsRun(l, Init(l, mem, rows), es)
    ensures Shaped(l, s)
  {
    Exec(l, Init(l, mem, rows), es)
  }

  /** es runs the launch until nothing is left to run. */
  ghost predicate Completes(l: Launch, mem: map<nat, int>, rows: seq<nat>, es: seq<Event>)
    requires l.Valid()
  {
    IsRun(l, Init(l, mem, rows), es) && Quiescent(Outcome(l, mem, rows, es))
  }

  // ------------------------------------------------------------------
  // Where a raw id is: still to be handed out, held by blocks, served.
  // ------------------------------------------------------------------

  predicate Avail(l: Launch, s: State, i: nat)
    requires |s.pcs| == l.blocks
  {
    && i < l.n
    && if i < l.blocks then s.pcs[i].Unlaunched?
       else l.mode == Ticket && l.blocks + |s.claims| <= i
  }

  function Holders(pcs: seq<Pc>, i: nat): (hs: seq<nat>)
    ensures |hs| == |pcs|
    ensures forall b :: 0 <= b < |pcs| ==> hs[b] == if pcs[b].Body? && pcs[b].raw == i then 1 else 0
  {
    seq(|pcs|, b requires 0 <= b < |pcs| => if pcs[b].Body? && pcs[b].raw == i then 1 else 0)
  }

  /** How many times raw id i has been, is being, or will be handed out. */
  function Occ(l: Launch, s: State, i: nat): nat
    requires |s.pcs| == l.blocks
  {
    multiset(s.served)[i] + Sum(Holders(s.pcs, i)) + if Avail(l, s, i) then 1 else 0
  }

  lemma {:induction false} SumAtLeast(hs: seq<nat>, b: nat)
    requires b < |hs|
    ensures Sum(hs) >= hs[b]
  {
    if b < |hs| - 1 { SumAtLeast(hs[..|hs| - 1], b); }
  }

  lemma HoldersUpdate(pcs: seq<Pc>, b: nat, pc: Pc, i: nat)
    requires b < |pcs|
    ensures Sum(Holders(pcs[b := pc], i)) + (if pcs[b].Body? && pcs[b].raw == i then 1 else 0)
            == Sum(Holders(pcs, i)) + (if pc.Body? && pc.raw == i then 1 else 0)
  {
    var v := if pc.Body? && pc.raw == i then 1 else 0;
    SumUpdate(Holders(pcs, i), b, v);
    assert Holders(pcs[b := pc], i) == Holders(pcs, i)[b := v];
  }

  /** One block moves; its id follows it. */
  lemma OccMove(l: Launch, s: State, s': State, b: nat, pc: Pc, i: nat)
    requires |s.pcs| == l.blocks && b < l.blocks && s'.pcs == s.pcs[b := pc]
    ensures Occ(l, s', i) + (if s.pcs[b].Body? && s.pcs[b].raw == i then 1 else 0)
            + multiset(s.served)[i] + (if Avail(l, s, i) then 1 else 0)
            == Occ(l, s, i) + (if pc.Body? && pc.raw == i then 1 else 0)
            + multiset(s'.served)[i] + (if Avail(l, s', i) then 1 else 0)
  {
    HoldersUpdate(s.pcs, b, pc, i);
  }

  lemma OccTake(l: Launch, s: State, b: nat, victim: Option<nat>, i: nat)
    requires l.Valid() && Shaped(l, s) && Enabled(l, s, Take(b, victim)) && i < l.n
    requires l.mode == Ticket ==> s.counter == l.blocks + |s.claims|
    ensures Occ(l, Step(l, s, Take(b, victim)), i) == Occ(l, s, i)
  {
    var s' := Step(l, s, Take(b, victim));
    if victim.Some? {
      HoldersUpdate(s.pcs, victim.value, Cancelled, i);
      HoldersUpdate(s.pcs[victim.value := Cancelled], b, Begin(l, victim.value), i);
    } else {
      OccMove(l, s, s', b, s'.pcs[b], i);
    }
  }

  /** Every step keeps the count of every id, unless the ticket counter has wrapped. */
  lemma OccStep(l: Launch, s: State, e: Event, i: nat)
    requires l.Valid() && Shaped(l, s) && Enabled(l, s, e) && i < l.n
    requires l.mode == Ticket && e.Take? ==> s.counter == l.blocks + |s.claims|
    ensures Occ(l, Step(l, s, e), i) == Occ(l, s, i)
  {
    var s' := Step(l, s, e);
    match e
    case Start(b) => OccMove(l, s, s', b, Begin(l, b), i);
    case Write(b) => OccMove(l, s, s', b, s'.pcs[b], i);
    case Finish(b, span) =>
      OccMove(l, s, s', b, s'.pcs[b], i);
      assert multiset(s'.served) == multiset(s.served) + multiset{s.pcs[b].raw};
    case Take(b, victim) => OccTake(l, s, b, victim, i);
  }

  // ------------------------------------------------------------------
  // Claim accounting.
  // ------------------------------------------------------------------

  predicate Failing(c: Claim, n: nat) {
    c.got.None? || c.got.value >= n
  }

  function Flags(pcs: seq<Pc>, p: Pc -> bool, n: nat): (fs: seq<nat>)
    ensures |fs| == |pcs|
    ensures forall b :: 0 <= b < |pcs| ==> fs[b] == if b < n && p(pcs[b]) then 1 else 0
  {
    seq(|pcs|, b requires 0 <= b < |pcs| => if b < n && p(pcs[b]) then 1 else 0)
  }

  const IsClaiming: Pc -> bool := (pc: Pc) => pc.Claiming?
  const IsExited: Pc -> bool := (pc: Pc) => pc.Exited?

  function FailFlags(claims: seq<Claim>, n: nat): (fs: seq<nat>)
    ensures |fs| == |claims|
    ensures forall k :: 0 <= k < |claims| ==> fs[k] == if Failing(claims[k], n) then 1 else 0
  {
    seq(|claims|, k requires 0 <= k < |claims| => if Failing(claims[k], n) then 1 else 0)
  }

  function Fails(claims: seq<Claim>, n: nat): nat {
    Sum(FailFlags(claims, n))
  }

  lemma FlagsUpdate(pcs: seq<Pc>, b: nat, pc: Pc, p: Pc -> bool, n: nat)
    requires b < |pcs|
    ensures Sum(Flags(pcs[b := pc], p, n)) + (if b < n && p(pcs[b]) then 1 else 0)
            == Sum(Flags(pcs, p, n)) + (if b < n && p(pc) then 1 else 0)
  {
    var v := if b < n && p(pc) then 1 else 0;
    SumUpdate(Flags(pcs, p, n), b, v);
    assert Flags(pcs[b := pc], p, n) == Flags(pcs, p, n)[b := v];
  }

  lemma FailsAppend(claims: seq<Claim>, c: Claim, n: nat)
    ensures Fails(claims + [c], n) == Fails(claims, n) + if Failing(c, n) then 1 else 0
  {
    assert FailFlags(claims + [c], n)[..|claims|] == FailFlags(claims, n);
  }

  /** Every served task is followed by at most one claim; a failed claim is its block's last. */
  ghost predicate ClaimsOnce(l: Launch, s: State)
    requires |s.pcs| == l.blocks
  {
    && (forall k :: 0 <= k < |s.claims| ==> s.claims[k].block < l.blocks)
    && (forall k :: 0 <= k < |s.claims| && Failing(s.claims[k], l.n) ==>
          s.pcs[s.claims[k].block].Exited?)
    && (forall j, k :: 0 <= j < k < |s.claims| && s.claims[j].block == s.claims[k].block ==>
          !Failing(s.claims[j], l.n))
  }

  /** Tasks served, claims issued and blocks waiting to claim always balance. */
  ghost predicate Balanced(l: Launch, s: State)
    requires |s.pcs| == l.blocks
  {
    l.mode != Static ==> |s.served| == |s.claims| + Sum(Flags(s.pcs, IsClaiming, l.blocks))
  }

  /** Only blocks below n serve or claim, and a static launch never claims. */
  ghost predicate Placed(l: Launch, s: State)
    requires |s.pcs| == l.blocks
  {
    && (forall b :: 0 <= b < l.blocks && (s.pcs[b].Body? || s.pcs[b].Claiming?) ==> b < l.n)
    && (l.mode == Static ==> forall b :: 0 <= b < l.blocks ==> !s.pcs[b].Claiming?)
  }

  /** In ticket mode every failed claim retires exactly one started worker. */
  ghost predicate FailsBalanced(l: Launch, s: State)
    requires |s.pcs| == l.blocks
  {
    && Fails(s.claims, l.n) == Sum(Flags(s.pcs, IsExited, l.n))
    && forall b :: 0 <= b < l.blocks ==> !s.pcs[b].Cancelled?
  }

  predicate CounterOk(l: Launch, s: State) {
    s.counter == (l.blocks + |s.claims|) % U32
  }

  lemma ClaimsOnceTake(l: Launch, s: State, b: nat, victim: Option<nat>)
    requires l.Valid() && Shaped(l, s) && Enabled(l, s, Take(b, victim)) && ClaimsOnce(l, s)
    ensures ClaimsOnce(l, Step(l, s, Take(b, victim)))
  {
    var s' := Step(l, s, Take(b, victim));
    var n := |s.claims|;
    assert forall k :: 0 <= k < n ==> s'.claims[k] == s.claims[k];
    assert s'.claims[n].block == b && !s.pcs[b].Exited?;
  }

  lemma ClaimsOnceStep(l: Launch, s: State, e: Event)
    requires l.Valid() && Shaped(l, s) && Enabled(l, s, e) && ClaimsOnce(l, s)
    ensures ClaimsOnce(l, Step(l, s, e))
  {
    if e.Take? {
      hide Step, Enabled, ClaimsOnce;
      ClaimsOnceTake(l, s, e.block, e.victim);
    } else {
      assert Step(l, s, e).claims == s.claims;
    }
  }

  lemma BalancedTake(l: Launch, s: State, b: nat, victim: Option<nat>)
    requires l.Valid() && Shaped(l, s) && Enabled(l, s, Take(b, victim)) && Balanced(l, s)
    ensures Balanced(l, Step(l, s, Take(b, victim)))
  {
    var s' := Step(l, s, Take(b, victim));
    if victim.Some? {
      FlagsUpdate(s.pcs, victim.value, Cancelled, IsClaiming, l.blocks);
      FlagsUpdate(s.pcs[victim.value := Cancelled], b, s'.pcs[b], IsClaiming, l.blocks);
    } else {
      FlagsUpdate(s.pcs, b, s'.pcs[b], IsClaiming, l.blocks);
    }
  }

  lemma BalancedStep(l: Launch, s: State, e: Event)
    requires l.Valid() && Shaped(l, s) && Enabled(l, s, e) && Balanced(l, s)
    ensures Balanced(l, Step(l, s, e))
  {
    if e.Take? {
      hide Step, Enabled, Balanced;
      BalancedTake(l, s, e.block, e.victim);
    } else {
      FlagsUpdate(s.pcs, e.block, Step(l, s, e).pcs[e.block], IsClaiming, l.blocks);
    }
  }

  lemma PlacedStep(l: Launch, s: State, e: Event)
    requires l.Valid() && Shaped(l, s) && Enabled(l, s, e) && Placed(l, s)
    ensures Placed(l, Step(l, s, e))
  {
  }

  lemma FailsBalancedStep(l: Launch, s: State, e: Event)
    requires l.Valid() && Shaped(l, s) && Enabled(l, s, e) && l.mode == Ticket
    requires Placed(l, s) && FailsBalanced(l, s)
    ensures FailsBalanced(l, Step(l, s, e))
  {
    var s' := Step(l, s, e);
    var b := e.block;
    FlagsUpdate(s.pcs, b, s'.pcs[b], IsExited, l.n);
    if e.Take? {
      FailsAppend(s.claims, s'.claims[|s.claims|], l.n);
    }
  }

  lemma CounterStep(l: Launch, s: State, e: Event)
    requires l.Valid() && Shaped(l, s) && Enabled(l, s, e) && l.mode == Ticket && CounterOk(l, s)
    ensures CounterOk(l, Step(l, s, e))
  {
  }
}
