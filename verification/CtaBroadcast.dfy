/**
 Inside one worker block: thread 0 claims and stores to the shared slot, every thread
 reads it back, and two barriers separate the uses of the slot. Steps are per thread.

 The two barriers can be switched off, to show that both are needed.
 */
module CtaBroadcast {
  import opened Prelude

  datatype Cta = Cta(threads: nat, n: nat, first: nat, before: bool, after: bool)

  datatype Pc = Run | AtFirst | Claim | AtSecond | Read | Done

  /** raws: each thread's loop variable; served: what each thread has run; issued: claims stored. */
  datatype State = State(pcs: seq<Pc>, raws: seq<nat>, slot: nat, issued: seq<nat>, served: seq<seq<nat>>)

  datatype Event =
    | EndBody(t: nat)
    | ReleaseFirst
    | Store(ticket: nat)
    | Skip(t: nat)
    | ReleaseSecond
    | Load(t: nat)

  ghost predicate Shaped(c: Cta, s: State) {
    |s.pcs| == |s.raws| == |s.served| == c.threads
  }

  function Init(c: Cta, slot: nat): State {
    State(seq(c.threads, _ => if c.first >= c.n then Done else Run),
          seq(c.threads, _ => c.first), slot, [], seq(c.threads, _ => []))
  }

  ghost predicate All(s: State, pc: Pc) {
    forall t :: 0 <= t < |s.pcs| ==> s.pcs[t] == pc
  }

  ghost predicate Enabled(c: Cta, s: State, e: Event)
    requires Shaped(c, s)
  {
    match e
    case EndBody(t) => t < c.threads && s.pcs[t] == Run
    case ReleaseFirst => All(s, AtFirst)
    case Store(_) => 0 < c.threads && s.pcs[0] == Claim
    case Skip(t) => 0 < t < c.threads && s.pcs[t] == Claim
    case ReleaseSecond => All(s, AtSecond)
    case Load(t) => t < c.threads && s.pcs[t] == Read
  }

  function Step(c: Cta, s: State, e: Event): (s': State)
    requires Shaped(c, s) && Enabled(c, s, e)
    ensures Shaped(c, s')
  {
    match e
    case EndBody(t) =>
      s.(pcs := s.pcs[t := if c.before then AtFirst else Claim],
         served := s.served[t := s.served[t] + [s.raws[t]]])
    case ReleaseFirst => s.(pcs := seq(c.threads, _ => Claim))
    case Store(ticket) =>
      s.(pcs := s.pcs[0 := if c.after then AtSecond else Read], slot := ticket, issued := s.issued + [ticket])
    case Skip(t) => s.(pcs := s.pcs[t := if c.after then AtSecond else Read])
    case ReleaseSecond => s.(pcs := seq(c.threads, _ => Read))
    case Load(t) => s.(pcs := s.pcs[t := if s.slot >= c.n then Done else Run], raws := s.raws[t := s.slot])
  }

  ghost predicate IsRun(c: Cta, s: State, es: seq<Event>)
    requires Shaped(c, s)
    decreases |es|
  {
    es == [] || (Enabled(c, s, es[0]) && IsRun(c, Step(c, s, es[0]), es[1..]))
  }

  ghost function Exec(c: Cta, s: State, es: seq<Event>): (s': State)
    requires Shaped(c, s) && IsRun(c, s, es)
    ensures Shaped(c, s')
    decreases |es|
  {
    if es == [] then s else Exec(c, Step(c, s, es[0]), es[1..])
  }

  /** The ids the block as a whole is meant to serve: its own, then the claims in order. */
  function Master(c: Cta, s: State): (m: seq<nat>)
    ensures |m| == |s.issued| + 1
  {
    [c.first] + s.issued
  }

  ghost predicate Serving(c: Cta, s: State, t: nat)
    requires Shaped(c, s) && t < c.threads
  {
    var m := Master(c, s);
    var g := |s.issued|;
    match s.pcs[t]
    case Run => s.raws[t] == m[g] < c.n && s.served[t] == m[..g]
    case AtFirst => s.raws[t] == m[g] < c.n && s.served[t] == m
    case Read => s.slot == m[g] && s.served[t] == m[..g]
    case Done => s.raws[t] == m[g] >= c.n && s.served[t] == m[..g]
    case _ => false
  }

  ghost predicate Claiming(c: Cta, s: State, t: nat)
    requires Shaped(c, s) && t < c.threads
  {
    var m := Master(c, s);
    var g := |s.issued|;
    && (s.pcs[t] == Claim || s.pcs[t] == AtSecond)
    && (if s.pcs[0] == Claim then s.served[t] == m
        else s.slot == m[g] && s.served[t] == m[..g])
  }

  ghost predicate Inv(c: Cta, s: State)
    requires Shaped(c, s)
  {
    || (forall t :: 0 <= t < c.threads ==> Serving(c, s, t))
    || (forall t :: 0 <= t < c.threads ==> Claiming(c, s, t))
  }

  lemma InitInv(c: Cta, slot: nat)
    ensures var s := Init(c, slot); Shaped(c, s) && Inv(c, s)
  {
    var s := Init(c, slot);
    assert forall t :: 0 <= t < c.threads ==> Serving(c, s, t);
  }

  /** The phase of one thread is the phase of all. */
  lemma Phase(c: Cta, s: State, t: nat)
    requires Shaped(c, s) && Inv(c, s) && t < c.threads
    ensures s.pcs[t] != Claim && s.pcs[t] != AtSecond ==> forall u :: 0 <= u < c.threads ==> Serving(c, s, u)
    ensures s.pcs[t] == Claim || s.pcs[t] == AtSecond ==> forall u :: 0 <= u < c.threads ==> Claiming(c, s, u)
  {
    if forall u :: 0 <= u < c.threads ==> Serving(c, s, u) {
      assert Serving(c, s, t);
    } else {
      assert Claiming(c, s, t);
    }
  }

  lemma StepInv(c: Cta, s: State, e: Event)
    requires c.threads > 0 && c.before && c.after && Shaped(c, s) && Enabled(c, s, e) && Inv(c, s)
    ensures Inv(c, Step(c, s, e))
  {
    var s' := Step(c, s, e);
    var t := if e.EndBody? || e.Skip? || e.Load? then e.t else 0;
    Phase(c, s, t);
    if e.EndBody? || e.Load? || e.ReleaseSecond? {
      forall u | 0 <= u < c.threads ensures Serving(c, s', u) {
        if e.ReleaseSecond? { assert Claiming(c, s, u); } else { assert Serving(c, s, u) && Serving(c, s, t); }
      }
    } else {
      assert e.Store? ==> Master(c, s')[..|s'.issued|] == Master(c, s);
      forall u | 0 <= u < c.threads ensures Claiming(c, s', u) {
        if e.ReleaseFirst? { assert Serving(c, s, u); } else { assert Claiming(c, s, u) && Claiming(c, s, t); }
      }
    }
  }

  lemma {:induction false} RunInv(c: Cta, s: State, es: seq<Event>)
    requires c.threads > 0 && c.before && c.after && Shaped(c, s) && Inv(c, s) && IsRun(c, s, es)
    ensures Inv(c, Exec(c, s, es))
    decreases |es|
  {
    if es != [] {
      StepInv(c, s, es[0]);
      RunInv(c, Step(c, s, es[0]), es[1..]);
    }
  }

  /** All threads of the block agree on the ids they have run, up to the one being run. */
  ghost predicate Uniform(c: Cta, s: State)
    requires Shaped(c, s)
  {
    forall t :: 0 <= t < c.threads ==>
      s.served[t] == Master(c, s) || s.served[t] == Master(c, s)[..|s.issued|]
  }

  /**
   With both barriers the block behaves as one sequential worker: in every interleaving of its
   threads all of them run the same ids in claim order; they all leave the loop on the same
   claim, so none waits at a barrier for a thread that is gone; and some thread can always move.
   */
  lemma ThreadsAgree(c: Cta, slot: nat, es: seq<Event>)
    requires c.threads > 0 && c.before && c.after && IsRun(c, Init(c, slot), es)
    ensures var s := Exec(c, Init(c, slot), es);
            && Uniform(c, s)
            && (forall t, u :: 0 <= t < c.threads && 0 <= u < c.threads && s.pcs[t] == Done ==>
                  s.pcs[u] == Done || s.pcs[u] == Read)
            && (All(s, Done) ==> forall t :: 0 <= t < c.threads ==> s.served[t] == Master(c, s)[..|s.issued|])
            && (!All(s, Done) ==> exists e :: Enabled(c, s, e))
  {
    InitInv(c, slot);
    RunInv(c, Init(c, slot), es);
    var s := Exec(c, Init(c, slot), es);
    Phase(c, s, 0);
    if s.pcs[0] != Claim && s.pcs[0] != AtSecond {
      forall t | 0 <= t < c.threads
        ensures s.served[t] == (if s.pcs[t] == AtFirst then Master(c, s) else Master(c, s)[..|s.issued|])
        ensures s.pcs[t] == Done <==> s.pcs[t] != Read && Master(c, s)[|s.issued|] >= c.n
      {
        assert Serving(c, s, t);
      }
      if !All(s, Done) { ServingMoves(c, s); }
    } else {
      forall t | 0 <= t < c.threads
        ensures s.served[t] == Master(c, s) || s.served[t] == Master(c, s)[..|s.issued|]
        ensures s.pcs[t] != Done
      {
        assert Claiming(c, s, t);
      }
      ClaimingMoves(c, s);
    }
  }

  lemma ServingMoves(c: Cta, s: State)
    requires Shaped(c, s) && !All(s, Done) && forall t :: 0 <= t < c.threads ==> Serving(c, s, t)
    ensures exists e :: Enabled(c, s, e)
  {
    var t :| 0 <= t < c.threads && s.pcs[t] != Done;
    assert Serving(c, s, t);
    if s.pcs[t] == Run {
      assert Enabled(c, s, EndBody(t));
    } else if s.pcs[t] == Read {
      assert Enabled(c, s, Load(t));
    } else if u :| 0 <= u < c.threads && s.pcs[u] != AtFirst {
      assert Serving(c, s, u);
      assert Enabled(c, s, if s.pcs[u] == Run then EndBody(u) else Load(u));
    } else {
      assert Enabled(c, s, ReleaseFirst);
    }
  }

  lemma ClaimingMoves(c: Cta, s: State)
    requires Shaped(c, s) && c.threads > 0 && forall t :: 0 <= t < c.threads ==> Claiming(c, s, t)
    ensures exists e :: Enabled(c, s, e)
  {
    if s.pcs[0] == Claim {
      assert Enabled(c, s, Store(0));
    } else if t :| 0 < t < c.threads && s.pcs[t] == Claim {
      assert Enabled(c, s, Skip(t));
    } else {
      forall u | 0 <= u < c.threads ensures s.pcs[u] == AtSecond { assert Claiming(c, s, u); }
      assert Enabled(c, s, ReleaseSecond);
    }
  }

  /** A run can be extended by any event its last state enables. */
  lemma {:induction false} Then(c: Cta, s: State, es: seq<Event>, e: Event) returns (fs: seq<Event>)
    requires Shaped(c, s) && IsRun(c, s, es) && Enabled(c, Exec(c, s, es), e)
    ensures fs == es + [e] && IsRun(c, s, fs) && Exec(c, s, fs) == Step(c, Exec(c, s, es), e)
    decreases |es|
  {
    fs := es + [e];
    if es == [] {
      assert fs[1..] == [];
    } else {
      var gs := Then(c, Step(c, s, es[0]), es[1..], e);
      assert fs[1..] == gs;
    }
  }

  /** Without the second barrier a thread can read the slot before the claim is stored. */
  lemma SecondBarrierNeeded(n: nat) returns (es: seq<Event>)
    requires n > 7
    ensures var c := Cta(2, n, 1, true, false);
            IsRun(c, Init(c, 0), es) && !Uniform(c, Exec(c, Init(c, 0), es))
  {
    var c := Cta(2, n, 1, true, false);
    es := Then(c, Init(c, 0), [], EndBody(0));
    es := Then(c, Init(c, 0), es, EndBody(1));
    es := Then(c, Init(c, 0), es, ReleaseFirst);
    es := Then(c, Init(c, 0), es, Skip(1));
    es := Then(c, Init(c, 0), es, Load(1));
    es := Then(c, Init(c, 0), es, EndBody(1));
    es := Then(c, Init(c, 0), es, Store(7));
    var s := Exec(c, Init(c, 0), es);
    assert s.served[1] == [1, 0] && Master(c, s) == [1, 7];
  }

  lemma FirstClaimUnguarded(c: Cta) returns (es: seq<Event>)
    requires c == Cta(2, c.n, 1, false, true) && c.n > 7
    ensures IsRun(c, Init(c, 0), es)
    ensures Exec(c, Init(c, 0), es) == State([Run, Read], [5, 1], 5, [5], [[1], [1]])
  {
    es := Then(c, Init(c, 0), [], EndBody(0));
    es := Then(c, Init(c, 0), es, Store(5));
    es := Then(c, Init(c, 0), es, EndBody(1));
    es := Then(c, Init(c, 0), es, Skip(1));
    es := Then(c, Init(c, 0), es, ReleaseSecond);
    es := Then(c, Init(c, 0), es, Load(0));
    var s := Exec(c, Init(c, 0), es);
    assert s.pcs == [Run, Read] && s.raws == [5, 1] && s.issued == [5];
    assert s.served[0] == [1] && s.served[1] == [1];
    assert s.served == [[1], [1]];
  }

  /** Without the first barrier the next claim can overwrite the slot before a thread has read it. */
  lemma FirstBarrierNeeded(n: nat) returns (es: seq<Event>)
    requires n > 7
    ensures var c := Cta(2, n, 1, false, true);
            IsRun(c, Init(c, 0), es) && !Uniform(c, Exec(c, Init(c, 0), es))
  {
    var c := Cta(2, n, 1, false, true);
    es := FirstClaimUnguarded(c);
    es := Then(c, Init(c, 0), es, EndBody(0));
    es := Then(c, Init(c, 0), es, Store(6));
    es := Then(c, Init(c, 0), es, Load(1));
    es := Then(c, Init(c, 0), es, EndBody(1));
    var s := Exec(c, Init(c, 0), es);
    assert s.served[1] == [1, 6] && s.served[1][1] == 6;
    assert Master(c, s) == [1, 5, 6] && Master(c, s)[..2] == [1, 5];
  }
}
