/**
 Every run of a generated launch: exactly-once service, claim accounting, output memory
 and timer rows at quiescence, termination, and exactly when the 32-bit ticket wraps.
 */
module DriverRuns {
  import opened Prelude
  import opened Driver
  import opened DriverData
  import opened DriverTermination

  ghost predicate ExactlyOnce(l: Launch, s: State)
    requires |s.pcs| == l.blocks
  {
    forall i :: 0 <= i < l.n ==> Occ(l, s, i) == if i < l.Reach() then 1 else 0
  }

  /** How far each task has got, according to where its raw id is. */
  ghost predicate Progress(l: Launch, s: State)
    requires l.Valid() && Shaped(l, s)
  {
    && ProgBounded(l, s.prog)
    && (forall b :: 0 <= b < l.blocks && s.pcs[b].Body? ==>
          s.prog[l.task[s.pcs[b].raw]] == s.pcs[b].stores)
    && (forall i :: 0 <= i < l.n && i in s.served ==> s.prog[l.task[i]] == |l.bodies[l.task[i]]|)
    && (forall i :: 0 <= i < l.n && Avail(l, s, i) ==> s.prog[l.task[i]] == 0)
    && (forall i :: i in s.served ==> i < l.n)
    && (forall i :: 0 <= i < l.n ==> (l.task[i] in s.cycles <==> i in s.served))
  }

  /** The protocol half of the invariant, without the data the blocks write. */
  ghost predicate Protocol(l: Launch, s: State)
    requires l.Valid() && Shaped(l, s)
  {
    && ExactlyOnce(l, s) && ClaimsOnce(l, s) && Balanced(l, s) && Placed(l, s) && Progress(l, s)
    && (l.mode == Ticket ==> FailsBalanced(l, s) && CounterOk(l, s))
  }

  lemma OccFacts(l: Launch, s: State, i: nat)
    requires |s.pcs| == l.blocks && Occ(l, s, i) <= 1
    ensures forall b :: 0 <= b < l.blocks && s.pcs[b].Body? && s.pcs[b].raw == i ==>
              i !in s.served && !Avail(l, s, i)
    ensures forall b, c ::
              0 <= b < c < l.blocks && s.pcs[b].Body? && s.pcs[c].Body? && s.pcs[b].raw == i ==> s.pcs[c].raw != i
    ensures Avail(l, s, i) ==> i !in s.served
    ensures multiset(s.served)[i] <= 1
  {
    var hs := Holders(s.pcs, i);
    forall b | 0 <= b < l.blocks && s.pcs[b].Body? && s.pcs[b].raw == i
      ensures i !in s.served && !Avail(l, s, i)
    {
      SumAtLeast(hs, b);
    }
    forall b, c | 0 <= b < c < l.blocks && s.pcs[b].Body? && s.pcs[c].Body? && s.pcs[b].raw == i
      ensures s.pcs[c].raw != i
    {
      if s.pcs[c].raw == i {
        SumUpdate(hs, b, 0);
        SumAtLeast(hs[b := 0], c);
      }
    }
  }

  lemma TwiceCounts(s: seq<nat>, i: nat, j: nat)
    requires i < j < |s| && s[i] == s[j]
    ensures multiset(s)[s[i]] >= 2
  {
    var a, b := s[..j], s[j..];
    assert s == a + b;
    assert a[i] == s[i] && b[0] == s[j];
    assert multiset(s) == multiset(a) + multiset(b);
    assert s[i] in multiset(a) && s[i] in multiset(b);
  }

  lemma NoDupFromCounts(s: seq<nat>)
    requires forall i :: i in s ==> multiset(s)[i] <= 1
    ensures NoDup(s)
  {
    forall i, j | 0 <= i < j < |s| ensures s[i] != s[j] {
      if s[i] == s[j] { TwiceCounts(s, i, j); }
    }
  }

  lemma ServedNoDup(l: Launch, s: State)
    requires l.Valid() && Shaped(l, s) && ExactlyOnce(l, s) && Progress(l, s)
    ensures NoDup(s.served) && |s.served| <= l.n
    ensures forall i :: i in s.served ==> i < l.Reach()
  {
    forall i | i in s.served ensures multiset(s.served)[i] <= 1 && i < l.Reach() {
      OccFacts(l, s, i);
    }
    NoDupFromCounts(s.served);
    assert forall k :: 0 <= k < |s.served| ==> s.served[k] in s.served;
    NoDupBounded(s.served, l.n);
  }

  /** A ticket handed out before the last one cannot have wrapped. */
  lemma TicketUnwrapped(l: Launch, s: State, b: nat)
    requires l.Valid() && Shaped(l, s) && Protocol(l, s) && l.mode == Ticket
    requires b < l.blocks && s.pcs[b].Claiming? && l.blocks + l.n <= U32
    ensures l.blocks + |s.claims| < U32 && s.counter == l.blocks + |s.claims|
  {
    ServedNoDup(l, s);
    SumAtLeast(Flags(s.pcs, IsClaiming, l.blocks), b);
  }

  lemma InitOnce(l: Launch, mem: map<nat, int>, rows: seq<nat>)
    requires l.Valid()
    ensures ExactlyOnce(l, Init(l, mem, rows))
  {
    var s := Init(l, mem, rows);
    forall i | 0 <= i < l.n ensures Occ(l, s, i) == if i < l.Reach() then 1 else 0 {
      SumZero(Holders(s.pcs, i));
    }
  }

  lemma InitProtocol(l: Launch, mem: map<nat, int>, rows: seq<nat>)
    requires l.Valid()
    ensures var s := Init(l, mem, rows); Shaped(l, s) && Protocol(l, s)
  {
    var s := Init(l, mem, rows);
    InitOnce(l, mem, rows);
    hide ExactlyOnce;
    SumZero(Flags(s.pcs, IsClaiming, l.blocks));
    SumZero(Flags(s.pcs, IsExited, l.n));
  }

  lemma ProgressWrite(l: Launch, s: State, b: nat)
    requires l.Valid() && Shaped(l, s) && Enabled(l, s, Write(b)) && ExactlyOnce(l, s) && Progress(l, s)
    ensures Progress(l, Step(l, s, Write(b)))
  {
    var s' := Step(l, s, Write(b));
    var raw := s.pcs[b].raw;
    OccFacts(l, s, raw);
    assert forall i :: 0 <= i < l.n ==> Avail(l, s', i) == Avail(l, s, i);
    assert forall i :: 0 <= i < l.n && i != raw ==> l.task[i] != l.task[raw];
    assert forall i :: 0 <= i < l.n && i != raw ==> s'.prog[l.task[i]] == s.prog[l.task[i]];
    forall c | 0 <= c < l.blocks && s'.pcs[c].Body?
      ensures s'.prog[l.task[s'.pcs[c].raw]] == s'.pcs[c].stores
    {
      if c != b { assert s.pcs[c].raw != raw; }
    }
  }

  lemma ProgressFinish(l: Launch, s: State, b: nat, span: nat)
    requires l.Valid() && Shaped(l, s) && Enabled(l, s, Finish(b, span)) && ExactlyOnce(l, s) && Progress(l, s)
    ensures Progress(l, Step(l, s, Finish(b, span)))
  {
    var s' := Step(l, s, Finish(b, span));
    var raw := s.pcs[b].raw;
    OccFacts(l, s, raw);
    assert forall i :: 0 <= i < l.n ==> Avail(l, s', i) == Avail(l, s, i);
    assert forall i :: 0 <= i < l.n && i != raw ==> l.task[i] != l.task[raw];
    assert forall i :: i in s'.served <==> i in s.served || i == raw;
  }

  lemma ProgressStart(l: Launch, s: State, b: nat)
    requires l.Valid() && Shaped(l, s) && Enabled(l, s, Start(b)) && Progress(l, s)
    ensures Progress(l, Step(l, s, Start(b)))
  {
    var s' := Step(l, s, Start(b));
    assert forall i :: 0 <= i < l.n && Avail(l, s', i) ==> Avail(l, s, i);
    assert b < l.n ==> Avail(l, s, b);
  }

  lemma ProgressTake(l: Launch, s: State, b: nat, victim: Option<nat>)
    requires l.Valid() && Shaped(l, s) && Enabled(l, s, Take(b, victim)) && Progress(l, s)
    requires l.mode == Ticket ==> s.counter == l.blocks + |s.claims|
    ensures Progress(l, Step(l, s, Take(b, victim)))
  {
    var s' := Step(l, s, Take(b, victim));
    assert forall i :: 0 <= i < l.n && Avail(l, s', i) ==> Avail(l, s, i);
    var raw := if l.mode == Ticket then s.counter else if victim.Some? then victim.value else l.n;
    assert raw < l.n ==> Avail(l, s, raw);
    assert s'.pcs[b] == Begin(l, raw);
  }

  lemma ProgressStep(l: Launch, s: State, e: Event)
    requires l.Valid() && Shaped(l, s) && Enabled(l, s, e) && ExactlyOnce(l, s) && Progress(l, s)
    requires l.mode == Ticket && e.Take? ==> s.counter == l.blocks + |s.claims|
    ensures Progress(l, Step(l, s, e))
  {
    hide Progress, Step, Enabled, ExactlyOnce;
    match e
    case Write(b) => ProgressWrite(l, s, b);
    case Finish(b, span) => ProgressFinish(l, s, b, span);
    case Start(b) => ProgressStart(l, s, b);
    case Take(b, victim) => ProgressTake(l, s, b, victim);
  }

  lemma ProtocolStep(l: Launch, s: State, e: Event)
    requires l.Valid() && Shaped(l, s) && Enabled(l, s, e) && Protocol(l, s)
    requires l.mode == Ticket && e.Take? ==> s.counter == l.blocks + |s.claims|
    ensures Protocol(l, Step(l, s, e))
  {
    forall i | 0 <= i < l.n
      ensures Occ(l, Step(l, s, e), i) == if i < l.Reach() then 1 else 0
    {
      OccStep(l, s, e, i);
    }
    ClaimsOnceStep(l, s, e);
    BalancedStep(l, s, e);
    PlacedStep(l, s, e);
    ProgressStep(l, s, e);
    if l.mode == Ticket {
      FailsBalancedStep(l, s, e);
      CounterStep(l, s, e);
    }
  }

  // ------------------------------------------------------------------
  // Whole runs.
  // ------------------------------------------------------------------

  ghost predicate NoWrap(l: Launch) {
    l.mode == Ticket ==> l.blocks + l.n <= U32
  }

  ghost predicate Timed(l: Launch, rows0: seq<nat>, s: State)
    requires |l.row| == l.n
  {
    Timers(l, rows0, s) && forall t :: t in s.cycles ==> t < l.n
  }

  ghost predicate Stored(l: Launch, mem0: map<nat, int>, s: State)
    requires l.Valid() && Shaped(l, s)
  {
    ProgBounded(l, s.prog) && Memory(l, mem0, s.prog, s.mem)
  }

  lemma ProtocolNext(l: Launch, s: State, e: Event)
    requires l.Valid() && NoWrap(l) && Shaped(l, s) && Enabled(l, s, e) && Protocol(l, s)
    ensures Protocol(l, Step(l, s, e))
  {
    if l.mode == Ticket && e.Take? { TicketUnwrapped(l, s, e.block); }
    ProtocolStep(l, s, e);
  }

  lemma TimedStep(l: Launch, rows0: seq<nat>, s: State, e: Event)
    requires l.Valid() && Shaped(l, s) && Enabled(l, s, e) && Protocol(l, s) && Timed(l, rows0, s)
    ensures Timed(l, rows0, Step(l, s, e))
  {
    if e.Finish? {
      hide Timers;
      var raw := s.pcs[e.block].raw;
      OccFacts(l, s, raw);
      assert l.task[raw] !in s.cycles;
      hide Protocol;
      TimersFinish(l, rows0, s, l.task[raw], e.span);
    }
  }

  lemma StoredWrite(l: Launch, mem0: map<nat, int>, s: State, b: nat)
    requires l.Valid() && Disjoint(l.bodies) && Shaped(l, s) && Enabled(l, s, Write(b))
    requires Progress(l, s) && Stored(l, mem0, s)
    ensures Stored(l, mem0, Step(l, s, Write(b)))
  {
    MemoryWrite(l, mem0, s.prog, s.mem, l.task[s.pcs[b].raw]);
  }

  lemma StoredStep(l: Launch, mem0: map<nat, int>, s: State, e: Event)
    requires l.Valid() && Disjoint(l.bodies) && Shaped(l, s) && Enabled(l, s, e)
    requires Protocol(l, s) && Stored(l, mem0, s)
    ensures Stored(l, mem0, Step(l, s, e))
  {
    if e.Write? {
      StoredWrite(l, mem0, s, e.block);
    } else {
      assert Step(l, s, e).prog == s.prog && Step(l, s, e).mem == s.mem;
    }
  }

  lemma InitData(l: Launch, mem: map<nat, int>, rows: seq<nat>)
    requires l.Valid()
    ensures Stored(l, mem, Init(l, mem, rows))
    ensures RowsFit(rows) ==> Timed(l, rows, Init(l, mem, rows))
  {
    forall r | 0 <= r < |rows| ensures RowTotal(l, map[], r) == 0 {
      SumZero(RowShares(l, map[], r));
    }
  }

  /** The protocol invariant holds at the end of every run, whatever the tasks store. */
  lemma {:induction false} ProtocolRun(l: Launch, s: State, es: seq<Event>)
    requires l.Valid() && NoWrap(l) && Shaped(l, s) && IsRun(l, s, es) && Protocol(l, s)
    ensures Protocol(l, Exec(l, s, es))
    decreases |es|
  {
    hide Protocol, Step, Enabled;
    if es != [] {
      ProtocolNext(l, s, es[0]);
      ProtocolRun(l, Step(l, s, es[0]), es[1..]);
    }
  }

  lemma {:induction false} TimedRun(l: Launch, rows0: seq<nat>, s: State, es: seq<Event>)
    requires l.Valid() && NoWrap(l) && Shaped(l, s) && IsRun(l, s, es) && Protocol(l, s) && Timed(l, rows0, s)
    ensures Timed(l, rows0, Exec(l, s, es))
    decreases |es|
  {
    hide Protocol, Timed, Step, Enabled;
    if es != [] {
      ProtocolNext(l, s, es[0]);
      TimedStep(l, rows0, s, es[0]);
      TimedRun(l, rows0, Step(l, s, es[0]), es[1..]);
    }
  }

  lemma {:induction false} StoredRun(l: Launch, mem0: map<nat, int>, s: State, es: seq<Event>)
    requires l.Valid() && Disjoint(l.bodies) && NoWrap(l) && Shaped(l, s) && IsRun(l, s, es)
    requires Protocol(l, s) && Stored(l, mem0, s)
    ensures Stored(l, mem0, Exec(l, s, es))
    decreases |es|
  {
    hide Protocol, Stored, Disjoint, Step, Enabled;
    if es != [] {
      ProtocolNext(l, s, es[0]);
      StoredStep(l, mem0, s, es[0]);
      StoredRun(l, mem0, Step(l, s, es[0]), es[1..]);
    }
  }

  /** One step of any block keeps what every complete run is judged by. */
  lemma InvariantStep(l: Launch, mem0: map<nat, int>, rows0: seq<nat>, s: State, e: Event)
    requires l.Valid() && NoWrap(l) && Shaped(l, s) && Enabled(l, s, e)
    requires Protocol(l, s) && Timed(l, rows0, s)
    ensures Protocol(l, Step(l, s, e)) && Timed(l, rows0, Step(l, s, e))
    ensures Disjoint(l.bodies) && Stored(l, mem0, s) ==> Stored(l, mem0, Step(l, s, e))
  {
    hide Protocol, Timed, Stored, Disjoint, Step;
    ProtocolNext(l, s, e);
    TimedStep(l, rows0, s, e);
    if Disjoint(l.bodies) && Stored(l, mem0, s) { StoredStep(l, mem0, s, e); }
  }

  predicate RowsFit(rows: seq<nat>) {
    forall r :: 0 <= r < |rows| ==> rows[r] < U64
  }

  lemma OutcomeProtocol(l: Launch, mem: map<nat, int>, rows: seq<nat>, es: seq<Event>)
    requires l.Valid() && NoWrap(l) && IsRun(l, Init(l, mem, rows), es)
    ensures Protocol(l, Outcome(l, mem, rows, es))
  {
    InitProtocol(l, mem, rows);
    ProtocolRun(l, Init(l, mem, rows), es);
  }

  /** In every interleaving no raw id is ever served twice, and none beyond the reach is served. */
  lemma NeverServedTwice(l: Launch, mem: map<nat, int>, rows: seq<nat>, es: seq<Event>)
    requires l.Valid() && NoWrap(l) && IsRun(l, Init(l, mem, rows), es)
    ensures var s := Outcome(l, mem, rows, es);
            NoDup(s.served) && forall i :: i in s.served ==> i < l.Reach()
  {
    OutcomeProtocol(l, mem, rows, es);
    ServedNoDup(l, Outcome(l, mem, rows, es));
  }

  /** At quiescence every id is served or, in ticket mode, still above the counter. */
  lemma QuiescentPlace(l: Launch, s: State, i: nat)
    requires l.Valid() && Shaped(l, s) && ExactlyOnce(l, s) && Quiescent(s) && i < l.Reach()
    ensures i in s.served <==> !Avail(l, s, i)
  {
    SumZero(Holders(s.pcs, i));
    assert Occ(l, s, i) == 1;
    assert i in s.served <==> i in multiset(s.served);
  }

  lemma {:induction false} SumOnes(fs: seq<nat>, n: nat)
    requires forall b :: 0 <= b < |fs| ==> fs[b] == if b < n then 1 else 0
    ensures Sum(fs) == if |fs| <= n then |fs| else n
  {
    if fs != [] { SumOnes(fs[..|fs| - 1], n); }
  }

  lemma QuiescentBalanced(l: Launch, s: State)
    requires l.Valid() && Shaped(l, s) && Protocol(l, s) && Quiescent(s)
    ensures l.mode != Static ==> |s.served| == |s.claims|
    ensures l.mode == Ticket ==> Fails(s.claims, l.n) == if l.blocks <= l.n then l.blocks else l.n
  {
    SumZero(Flags(s.pcs, IsClaiming, l.blocks));
    if l.mode == Ticket { SumOnes(Flags(s.pcs, IsExited, l.n), l.n); }
  }

  /** When nothing is left to run, exactly the reachable ids have been served, once each. */
  lemma QuiescentServedAll(l: Launch, s: State)
    requires l.Valid() && Shaped(l, s) && Protocol(l, s) && Quiescent(s)
    ensures IsPerm(s.served, l.Reach())
  {
    ServedNoDup(l, s);
    QuiescentBalanced(l, s);
    var top := l.blocks + |s.claims|;
    var m := if l.mode == Ticket && top < l.n && l.blocks < l.n then top else l.Reach();
    forall i: nat ensures i in s.served <==> i < m {
      if i < l.Reach() { QuiescentPlace(l, s, i); }
    }
    NoDupCovers(s.served, m);
    assert forall i :: 0 <= i < |s.served| ==> s.served[i] in s.served;
  }

  /**
   Ticket accounting: when all workers have exited, N claims were issued, min(W, N) of them
   failed, and the counter word holds W + N.
   */
  lemma TicketAccounting(l: Launch, mem: map<nat, int>, rows: seq<nat>, es: seq<Event>)
    requires l.Valid() && l.mode == Ticket && l.blocks + l.n <= U32
    requires Completes(l, mem, rows, es)
    ensures var s := Outcome(l, mem, rows, es);
            && |s.claims| == l.n
            && Fails(s.claims, l.n) == (if l.blocks <= l.n then l.blocks else l.n)
            && s.counter == (l.blocks + l.n) % U32
  {
    OutcomeProtocol(l, mem, rows, es);
    QuiescentServedAll(l, Outcome(l, mem, rows, es));
    QuiescentBalanced(l, Outcome(l, mem, rows, es));
  }

  lemma {:induction false} ClaimsOnceRun(l: Launch, s: State, es: seq<Event>)
    requires l.Valid() && Shaped(l, s) && IsRun(l, s, es) && ClaimsOnce(l, s)
    ensures ClaimsOnce(l, Exec(l, s, es))
    decreases |es|
  {
    hide ClaimsOnce, Step, Enabled;
    if es != [] {
      ClaimsOnceStep(l, s, es[0]);
      ClaimsOnceRun(l, Step(l, s, es[0]), es[1..]);
    }
  }

  /** A block whose claim failed never issues another one, in any run, wrapped or not. */
  lemma NoClaimAfterFailure(l: Launch, mem: map<nat, int>, rows: seq<nat>, es: seq<Event>, j: nat, k: nat)
    requires l.Valid() && IsRun(l, Init(l, mem, rows), es)
    ensures var s := Outcome(l, mem, rows, es);
            j < k < |s.claims| && Failing(s.claims[j], l.n) ==> s.claims[j].block != s.claims[k].block
  {
    ClaimsOnceRun(l, Init(l, mem, rows), es);
  }

  /** Each task's recorded duration, and only those, make up a timer row. */
  ghost predicate RowsAre(l: Launch, rows0: seq<nat>, s: State)
    requires |l.row| == l.n
  {
    && (forall t :: t in s.cycles <==> 0 <= t < l.n)
    && Timers(l, rows0, s)
  }

  /** Every complete run serves exactly the reachable ids, once each. */
  lemma ServesAll(l: Launch, mem: map<nat, int>, rows: seq<nat>, es: seq<Event>)
    requires l.Valid() && NoWrap(l) && Completes(l, mem, rows, es)
    ensures IsPerm(Outcome(l, mem, rows, es).served, l.Reach())
  {
    OutcomeProtocol(l, mem, rows, es);
    QuiescentServedAll(l, Outcome(l, mem, rows, es));
  }

  /** What the invariants say once nothing is left to run. */
  lemma Settled(l: Launch, mem: map<nat, int>, rows: seq<nat>, s: State)
    requires l.Valid() && l.Reach() == l.n && Shaped(l, s) && Quiescent(s)
    requires Protocol(l, s) && Timed(l, rows, s)
    ensures IsPerm(s.served, l.n) && RowsAre(l, rows, s)
    ensures Disjoint(l.bodies) && Stored(l, mem, s) ==> s.mem == Sequential(mem, l.bodies)
  {
    QuiescentServedAll(l, s);
    forall t: nat | t < l.n ensures s.prog[t] == |l.bodies[t]| && t in s.cycles {
      PermHitsAll(l.task, l.n, t);
      var i :| 0 <= i < l.n && l.task[i] == t;
      PermHitsAll(s.served, l.n, i);
    }
    if Disjoint(l.bodies) && Stored(l, mem, s) { MemoryComplete(l, mem, s.prog, s.mem); }
  }

  /**
   The main theorem. Every complete run of the launch, in any mode and any interleaving,
   serves each of the n ids once and leaves in each timer row the total duration of that row's
   tasks modulo 2^64; and if the tasks write disjoint cells, it ends in the memory of the
   reference launch.
   */
  lemma CompleteRun(l: Launch, mem: map<nat, int>, rows: seq<nat>, es: seq<Event>)
    requires l.Valid() && NoWrap(l) && l.Reach() == l.n && RowsFit(rows)
    requires Completes(l, mem, rows, es)
    ensures var s := Outcome(l, mem, rows, es);
            && IsPerm(s.served, l.n)
            && RowsAre(l, rows, s)
            && (Disjoint(l.bodies) ==> s.mem == Sequential(mem, l.bodies))
  {
    OutcomeProtocol(l, mem, rows, es);
    InitProtocol(l, mem, rows);
    InitData(l, mem, rows);
    hide Protocol, Timed, Stored, Disjoint, Quiescent, Init;
    TimedRun(l, rows, Init(l, mem, rows), es);
    if Disjoint(l.bodies) { StoredRun(l, mem, Init(l, mem, rows), es); }
    Settled(l, mem, rows, Outcome(l, mem, rows, es));
  }

  // ------------------------------------------------------------------
  // The 32-bit ticket word.
  // ------------------------------------------------------------------

  /** Once raw id 0 has two places it keeps them: ids are never forgotten. */
  lemma OccNeverDrops(l: Launch, s: State, e: Event)
    requires l.Valid() && Shaped(l, s) && Enabled(l, s, e) && l.mode == Ticket && l.n > 0
    ensures Occ(l, Step(l, s, e), 0) >= Occ(l, s, 0)
  {
    var s' := Step(l, s, e);
    OccMove(l, s, s', e.block, s'.pcs[e.block], 0);
    if e.Finish? {
      assert multiset(s'.served) == multiset(s.served) + multiset{s.pcs[e.block].raw};
    }
  }

  lemma {:induction false} OccNeverDropsRun(l: Launch, s: State, es: seq<Event>)
    requires l.Valid() && Shaped(l, s) && IsRun(l, s, es) && l.mode == Ticket && l.n > 0
    ensures Occ(l, Exec(l, s, es), 0) >= Occ(l, s, 0)
    decreases |es|
  {
    if es != [] {
      OccNeverDrops(l, s, es[0]);
      OccNeverDropsRun(l, Step(l, s, es[0]), es[1..]);
    }
  }

  /** The claim on a wrapped counter hands out raw id 0 a second time. */
  lemma WrappedClaim(l: Launch, s: State, e: Event)
    requires l.Valid() && Shaped(l, s) && Enabled(l, s, e) && l.mode == Ticket && l.n > 0
    requires e.Take? && s.counter == 0 && Occ(l, s, 0) == 1
    ensures Occ(l, Step(l, s, e), 0) == 2
  {
    var s' := Step(l, s, e);
    OccMove(l, s, s', e.block, s'.pcs[e.block], 0);
  }

  /** With more ids than the counter can number, a launch is not done before the counter wraps. */
  lemma NotDoneBeforeWrap(l: Launch, s: State)
    requires l.Valid() && l.mode == Ticket && l.blocks + l.n > U32
    requires Shaped(l, s) && Protocol(l, s) && l.blocks + |s.claims| <= U32
    ensures !Quiescent(s)
  {
    if Quiescent(s) {
      QuiescentServedAll(l, s);
      QuiescentBalanced(l, s);
    }
  }

  /** One step before the wrap: either it hands out id 0 again, or the invariant goes on. */
  lemma WrapStep(l: Launch, s: State, e: Event)
    requires l.Valid() && l.mode == Ticket && l.n > 0 && Shaped(l, s) && Enabled(l, s, e)
    requires Protocol(l, s) && l.blocks + |s.claims| <= U32
    ensures var s' := Step(l, s, e);
            Occ(l, s', 0) == 2 || (Protocol(l, s') && l.blocks + |s'.claims| <= U32)
  {
    if e.Take? && l.blocks + |s.claims| == U32 {
      WrappedClaim(l, s, e);
    } else {
      ProtocolStep(l, s, e);
      hide Protocol, Occ;
    }
  }

  lemma {:induction false} WrapDoublesZero(l: Launch, s: State, es: seq<Event>)
    requires l.Valid() && l.mode == Ticket && l.n > 0 && l.blocks + l.n > U32
    requires Shaped(l, s) && IsRun(l, s, es) && Protocol(l, s) && l.blocks + |s.claims| <= U32
    requires Quiescent(Exec(l, s, es))
    ensures Occ(l, Exec(l, s, es), 0) >= 2
    decreases |es|
  {
    hide Protocol, Occ, Quiescent, Step, Enabled;
    NotDoneBeforeWrap(l, s);
    if es != [] {
      WrapStep(l, s, es[0]);
      var s1 := Step(l, s, es[0]);
      if Occ(l, s1, 0) == 2 {
        OccNeverDropsRun(l, s1, es[1..]);
      } else {
        WrapDoublesZero(l, s1, es[1..]);
      }
    }
  }

  /**
   In ticket mode a complete run serves every id exactly once if and only if W + N fits in
   2^32: past that, every complete run serves id 0 twice.
   */
  lemma ExactlyOnceIffNoWrap(l: Launch, mem: map<nat, int>, rows: seq<nat>, es: seq<Event>)
    requires l.Valid() && l.mode == Ticket && l.n > 0
    requires Completes(l, mem, rows, es)
    ensures IsPerm(Outcome(l, mem, rows, es).served, l.n) <==> l.blocks + l.n <= U32
  {
    var s := Outcome(l, mem, rows, es);
    if l.blocks + l.n <= U32 {
      ServesAll(l, mem, rows, es);
    } else {
      InitProtocol(l, mem, rows);
      WrapDoublesZero(l, Init(l, mem, rows), es);
      SumZero(Holders(s.pcs, 0));
      if IsPerm(s.served, l.n) { NoDupCounts(s.served, 0); }
    }
  }

  /** And there is such a run: a launch past the wrap ends, with id 0 served at least twice. */
  lemma WrapHappens(l: Launch, mem: map<nat, int>, rows: seq<nat>) returns (es: seq<Event>)
    requires l.Valid() && l.mode == Ticket && l.n > 0 && l.blocks + l.n > U32
    ensures Completes(l, mem, rows, es) && multiset(Outcome(l, mem, rows, es).served)[0] >= 2
  {
    es := RunsComplete(l, mem, rows, []);
    InitProtocol(l, mem, rows);
    WrapDoublesZero(l, Init(l, mem, rows), es);
    SumZero(Holders(Outcome(l, mem, rows, es).pcs, 0));
    assert !Avail(l, Outcome(l, mem, rows, es), 0);
  }

  lemma {:induction false} NoDupCounts(s: seq<nat>, v: nat)
    requires NoDup(s)
    ensures multiset(s)[v] <= 1
  {
    if s != [] {
      var n := |s| - 1;
      NoDupCounts(s[..n], v);
      assert s == s[..n] + [s[n]];
      assert s[n] !in s[..n];
      assert multiset(s) == multiset(s[..n]) + multiset{s[n]};
    }
  }
}
