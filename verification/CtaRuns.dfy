/**
 Whole runs of one block's threads: for any claims that end the loop with the last of them, the
 threads have a run that issues exactly those claims and leaves no thread behind.
 */
module CtaRuns {
  import opened Prelude
  import opened CtaBroadcast

  lemma RunCons(c: Cta, s: State, e: Event, fs: seq<Event>)
    requires Shaped(c, s) && Enabled(c, s, e) && IsRun(c, Step(c, s, e), fs)
    ensures IsRun(c, s, [e] + fs) && Exec(c, s, [e] + fs) == Exec(c, Step(c, s, e), fs)
  {
    hide Step, Enabled;
    assert ([e] + fs)[1..] == fs && ([e] + fs)[0] == e;
  }

  lemma {:induction false} RunJoin(c: Cta, s: State, es: seq<Event>, fs: seq<Event>)
    requires Shaped(c, s) && IsRun(c, s, es) && IsRun(c, Exec(c, s, es), fs)
    ensures IsRun(c, s, es + fs) && Exec(c, s, es + fs) == Exec(c, Exec(c, s, es), fs)
    decreases |es|
  {
    hide Step, Enabled;
    if es == [] {
      assert [] + fs == fs;
    } else {
      RunJoin(c, Step(c, s, es[0]), es[1..], fs);
      RunCons(c, s, es[0], es[1..] + fs);
      assert [es[0]] + (es[1..] + fs) == es + fs;
    }
  }

  /** The three phases of a round that the threads go through one by one. */
  datatype Phase = Ends | Skips | Loads

  /** What the threads of a block have in common between phases. */
  datatype Common = Common(raw: nat, slot: nat, issued: seq<nat>, served: seq<nat>)

  function After(c: Cta, p: Phase, g: Common): Pc {
    match p
    case Ends => AtFirst
    case Skips => AtSecond
    case Loads => if g.slot >= c.n then Done else Run
  }

  function Before(p: Phase): Pc {
    match p
    case Ends => Run
    case Skips => Claim
    case Loads => Read
  }

  function RawOf(p: Phase, k: nat, g: Common, t: nat): nat {
    if p == Loads && t < k then g.slot else g.raw
  }

  /** The first k threads are through the phase. */
  function Part(c: Cta, p: Phase, k: nat, g: Common): (s: State)
    ensures Shaped(c, s) && s.slot == g.slot && s.issued == g.issued
    ensures forall t :: 0 <= t < c.threads ==>
              && s.pcs[t] == (if t < k then After(c, p, g) else Before(p))
              && s.raws[t] == RawOf(p, k, g, t)
              && s.served[t] == if p == Ends && t < k then g.served + [g.raw] else g.served
  {
    State(seq(c.threads, t requires 0 <= t => if t < k then After(c, p, g) else Before(p)),
          seq(c.threads, t requires 0 <= t => RawOf(p, k, g, t)),
          g.slot, g.issued,
          seq(c.threads, t requires 0 <= t => if p == Ends && t < k then g.served + [g.raw] else g.served))
  }

  function Move(p: Phase, t: nat): Event {
    match p
    case Ends => EndBody(t)
    case Skips => Skip(t)
    case Loads => Load(t)
  }

  lemma MoveOne(c: Cta, p: Phase, k: nat, g: Common)
    requires c.before && c.after && k < c.threads && (p == Skips ==> k > 0)
    ensures Enabled(c, Part(c, p, k, g), Move(p, k))
    ensures Step(c, Part(c, p, k, g), Move(p, k)) == Part(c, p, k + 1, g)
  {
    var s, t := Step(c, Part(c, p, k, g), Move(p, k)), Part(c, p, k + 1, g);
    assert s.pcs == t.pcs && s.raws == t.raws && s.served == t.served;
  }

  lemma {:induction false} MoveAll(c: Cta, p: Phase, k: nat, g: Common) returns (es: seq<Event>)
    requires c.before && c.after && k <= c.threads && (p == Skips ==> k > 0)
    ensures IsRun(c, Part(c, p, k, g), es) && Exec(c, Part(c, p, k, g), es) == Part(c, p, c.threads, g)
    decreases c.threads - k
  {
    if k == c.threads {
      es := [];
    } else {
      MoveOne(c, p, k, g);
      hide Part, Step, Enabled;
      var rest := MoveAll(c, p, k + 1, g);
      RunCons(c, Part(c, p, k, g), Move(p, k), rest);
      es := [Move(p, k)] + rest;
    }
  }

  lemma Release(c: Cta, g: Common, ticket: nat)
    requires c.threads > 0 && c.before && c.after
    ensures Enabled(c, Part(c, Ends, c.threads, g), ReleaseFirst)
    ensures var s := Step(c, Part(c, Ends, c.threads, g), ReleaseFirst);
            && Enabled(c, s, Store(ticket))
            && Step(c, s, Store(ticket))
               == Part(c, Skips, 1, Common(g.raw, ticket, g.issued + [ticket], g.served + [g.raw]))
  {
    var s := Step(c, Part(c, Ends, c.threads, g), ReleaseFirst);
    var s', t := Step(c, s, Store(ticket)),
                 Part(c, Skips, 1, Common(g.raw, ticket, g.issued + [ticket], g.served + [g.raw]));
    assert s'.pcs == t.pcs && s'.raws == t.raws && s'.served == t.served;
  }

  lemma ReleaseAgain(c: Cta, g: Common)
    requires c.before && c.after
    ensures Enabled(c, Part(c, Skips, c.threads, g), ReleaseSecond)
    ensures Step(c, Part(c, Skips, c.threads, g), ReleaseSecond) == Part(c, Loads, 0, g)
  {
    var s, t := Step(c, Part(c, Skips, c.threads, g), ReleaseSecond), Part(c, Loads, 0, g);
    assert s.pcs == t.pcs && s.raws == t.raws && s.served == t.served;
  }

  /** One round: every thread ends its body, one claim is stored, every thread loads it. */
  lemma Round(c: Cta, g: Common, ticket: nat) returns (es: seq<Event>)
    requires c.threads > 0 && c.before && c.after
    ensures IsRun(c, Part(c, Ends, 0, g), es)
    ensures Exec(c, Part(c, Ends, 0, g), es)
            == Part(c, Loads, c.threads, Common(g.raw, ticket, g.issued + [ticket], g.served + [g.raw]))
  {
    hide Part, Step, Enabled;
    var g' := Common(g.raw, ticket, g.issued + [ticket], g.served + [g.raw]);
    var ends := MoveAll(c, Ends, 0, g);
    var skips := MoveAll(c, Skips, 1, g');
    var loads := MoveAll(c, Loads, 0, g');
    Release(c, g, ticket);
    ReleaseAgain(c, g');
    var last := Part(c, Skips, c.threads, g');
    RunCons(c, last, ReleaseSecond, loads);
    RunJoin(c, Part(c, Skips, 1, g'), skips, [ReleaseSecond] + loads);
    var s := Step(c, Part(c, Ends, c.threads, g), ReleaseFirst);
    var tail := skips + ([ReleaseSecond] + loads);
    RunCons(c, s, Store(ticket), tail);
    RunCons(c, Part(c, Ends, c.threads, g), ReleaseFirst, [Store(ticket)] + tail);
    RunJoin(c, Part(c, Ends, 0, g), ends, [ReleaseFirst] + ([Store(ticket)] + tail));
    es := ends + ([ReleaseFirst] + ([Store(ticket)] + tail));
  }

  lemma RoundTurns(c: Cta, g: Common)
    ensures g.slot < c.n ==>
              Part(c, Loads, c.threads, g) == Part(c, Ends, 0, Common(g.slot, g.slot, g.issued, g.served))
    ensures g.slot >= c.n ==> All(Part(c, Loads, c.threads, g), Done)
  {
    var s, t := Part(c, Loads, c.threads, g), Part(c, Ends, 0, Common(g.slot, g.slot, g.issued, g.served));
    if g.slot < c.n { assert s.pcs == t.pcs && s.raws == t.raws && s.served == t.served; }
  }

  lemma {:induction false} Rounds(c: Cta, g: Common, claims: seq<nat>) returns (es: seq<Event>)
    requires c.threads > 0 && c.before && c.after && claims != [] && claims[|claims| - 1] >= c.n
    requires forall k :: 0 <= k < |claims| - 1 ==> claims[k] < c.n
    ensures IsRun(c, Part(c, Ends, 0, g), es)
    ensures var s := Exec(c, Part(c, Ends, 0, g), es); All(s, Done) && s.issued == g.issued + claims
    decreases |claims|
  {
    hide Part, All, IsRun, Exec;
    var g1 := Common(g.raw, claims[0], g.issued + [claims[0]], g.served + [g.raw]);
    es := Round(c, g, claims[0]);
    RoundTurns(c, g1);
    assert claims == [claims[0]] + claims[1..];
    if |claims| > 1 {
      var g2 := Common(claims[0], claims[0], g1.issued, g1.served);
      var rest := Rounds(c, g2, claims[1..]);
      RunJoin(c, Part(c, Ends, 0, g), es, rest);
      es := es + rest;
    }
  }

  /** A block's threads can follow any claims of which the last, and only the last, is past the range. */
  lemma ClaimsHaveRun(c: Cta, slot: nat, claims: seq<nat>) returns (es: seq<Event>)
    requires c.threads > 0 && c.before && c.after
    requires if c.first >= c.n then claims == [] else claims != [] && claims[|claims| - 1] >= c.n
    requires forall k :: 0 <= k < |claims| - 1 ==> claims[k] < c.n
    ensures IsRun(c, Init(c, slot), es)
    ensures All(Exec(c, Init(c, slot), es), Done) && Exec(c, Init(c, slot), es).issued == claims
  {
    if c.first >= c.n {
      es := [];
    } else {
      var g := Common(c.first, slot, [], []);
      var s, t := Init(c, slot), Part(c, Ends, 0, g);
      assert s.pcs == t.pcs && s.raws == t.raws && s.served == t.served;
      es := Rounds(c, g, claims);
      assert [] + claims == claims;
    }
  }
}
