/**
 The threads of one block under the launch as a whole: a block's claims in a run of the driver,
 broadcast to its threads through the shared slot, make every thread run exactly the raw ids the
 driver has that block serve.
 */
module BlockThreads {
  import opened Prelude
  import opened Driver
  import CtaBroadcast
  import CtaRuns

  /** What the claim stores in the shared slot: the id it got, or the sentinel n when there was none. */
  function Slot(n: nat, c: Claim): nat {
    if c.got.Some? then c.got.value else n
  }

  /** The claims of block b, in order. */
  function Own(claims: seq<Claim>, n: nat, b: nat): (own: seq<nat>)
    ensures |own| <= |claims|
  {
    if claims == [] then []
    else
      var c := claims[|claims| - 1];
      Own(claims[..|claims| - 1], n, b) + if c.block == b then [Slot(n, c)] else []
  }

  lemma OwnAppend(claims: seq<Claim>, c: Claim, n: nat, b: nat)
    ensures Own(claims + [c], n, b) == Own(claims, n, b) + if c.block == b then [Slot(n, c)] else []
  {
    assert (claims + [c])[..|claims|] == claims;
  }

  /** A claim puts the id it got in the slot, and num_tasks when there was none left. */
  lemma ClaimStores(claims: seq<Claim>, n: nat, b: nat, got: Option<nat>)
    ensures Own(claims + [Claim(b, got)], n, b) == Own(claims, n, b) + [if got == None then n else got.value]
    ensures forall c :: c != b ==> Own(claims + [Claim(c, got)], n, b) == Own(claims, n, b)
  {
    forall c: nat ensures c != b ==> Own(claims + [Claim(c, got)], n, b) == Own(claims, n, b) {
      OwnAppend(claims, Claim(c, got), n, b);
    }
    OwnAppend(claims, Claim(b, got), n, b);
  }

  /** The raw ids block b has served, once those so far and those of the run es are taken together. */
  ghost function ServedBy(l: Launch, s: State, es: seq<Event>, b: nat, before: seq<nat>): seq<nat>
    requires l.Valid() && Shaped(l, s) && IsRun(l, s, es)
    decreases |es|
  {
    if es == [] then before
    else
      var more := if es[0].Finish? && es[0].block == b then [s.pcs[b].raw] else [];
      ServedBy(l, Step(l, s, es[0]), es[1..], b, before + more)
  }

  /** A block serves its own id and then its claims, the last of which, past the range, ends it. */
  ghost predicate FollowsAt(n: nat, pc: Pc, b: nat, own: seq<nat>, served: seq<nat>) {
    && (forall k :: 0 <= k < |served| ==> served[k] < n)
    && match pc
       case Body(raw, _) => [b] + own == served + [raw]
       case Claiming => [b] + own == served
       case Exited =>
         || (b >= n && own == [] && served == [])
         || (b < n && own != [] && own[|own| - 1] >= n && [b] + own == served + [own[|own| - 1]])
       case _ => own == [] && served == []
  }

  ghost predicate Follows(l: Launch, s: State, b: nat, served: seq<nat>)
    requires b < |s.pcs|
  {
    FollowsAt(l.n, s.pcs[b], b, Own(s.claims, l.n, b), served)
  }

  /** A claim is served next, or ends the block. */
  lemma FollowsClaim(l: Launch, b: nat, own: seq<nat>, served: seq<nat>, got: nat)
    requires FollowsAt(l.n, Claiming, b, own, served) && b < l.n
    ensures FollowsAt(l.n, Begin(l, got), b, own + [got], served)
  {
    assert [b] + (own + [got]) == served + [got];
  }

  function TakeClaim(l: Launch, s: State, e: Event): Claim
    requires e.Take?
  {
    Claim(e.block, if l.mode == Ticket then Some(s.counter) else e.victim)
  }

  /** What a claim does to the blocks: the claimant goes on, a victim is cancelled, the others stay. */
  lemma TakeMoves(l: Launch, s: State, e: Event, b: nat)
    requires l.Valid() && l.mode != Static && Shaped(l, s) && Enabled(l, s, e) && e.Take? && b < l.blocks
    requires Placed(l, s)
    ensures Step(l, s, e).claims == s.claims + [TakeClaim(l, s, e)]
    ensures e.block == b ==>
              s.pcs[b].Claiming? && b < l.n && Step(l, s, e).pcs[b] == Begin(l, Slot(l.n, TakeClaim(l, s, e)))
    ensures e.block != b ==>
              Step(l, s, e).pcs[b] == s.pcs[b] || (s.pcs[b].Unlaunched? && Step(l, s, e).pcs[b].Cancelled?)
  {
  }

  lemma FollowsTake(l: Launch, s: State, e: Event, b: nat, served: seq<nat>)
    requires l.Valid() && l.mode != Static && Shaped(l, s) && Enabled(l, s, e) && e.Take?
    requires b < l.blocks && Placed(l, s) && Follows(l, s, b, served)
    ensures Follows(l, Step(l, s, e), b, served)
  {
    TakeMoves(l, s, e, b);
    OwnAppend(s.claims, TakeClaim(l, s, e), l.n, b);
    hide Own, Step, Enabled, Shaped, Placed;
    if e.block == b {
      hide FollowsAt;
      FollowsClaim(l, b, Own(s.claims, l.n, b), served, Slot(l.n, TakeClaim(l, s, e)));
    }
  }

  /** What the other steps do to the blocks. */
  lemma OtherMoves(l: Launch, s: State, e: Event, b: nat)
    requires l.Valid() && l.mode != Static && Shaped(l, s) && Enabled(l, s, e) && !e.Take? && b < l.blocks
    ensures Step(l, s, e).claims == s.claims
    ensures e.block != b ==> Step(l, s, e).pcs[b] == s.pcs[b]
    ensures e.block == b ==>
              match e
              case Start(_) => s.pcs[b].Unlaunched? && Step(l, s, e).pcs[b] == Begin(l, b)
              case Write(_) => s.pcs[b].Body? && Step(l, s, e).pcs[b] == Body(s.pcs[b].raw, s.pcs[b].stores + 1)
              case Finish(_, _) => s.pcs[b].Body? && s.pcs[b].raw < l.n && Step(l, s, e).pcs[b] == Claiming
  {
  }

  lemma FollowsBody(l: Launch, pc: Pc, b: nat, own: seq<nat>, served: seq<nat>)
    requires FollowsAt(l.n, pc, b, own, served)
    ensures pc.Unlaunched? ==> FollowsAt(l.n, Begin(l, b), b, own, served)
    ensures pc.Body? ==> FollowsAt(l.n, Body(pc.raw, pc.stores + 1), b, own, served)
    ensures pc.Body? && pc.raw < l.n ==> FollowsAt(l.n, Claiming, b, own, served + [pc.raw])
  {
    if pc.Unlaunched? { assert [b] + [] == [] + [b]; }
  }

  lemma FollowsStep(l: Launch, s: State, e: Event, b: nat, served: seq<nat>)
    requires l.Valid() && l.mode != Static && Shaped(l, s) && Enabled(l, s, e)
    requires b < l.blocks && Placed(l, s) && Follows(l, s, b, served)
    ensures Follows(l, Step(l, s, e), b, served + if e.Finish? && e.block == b then [s.pcs[b].raw] else [])
  {
    if e.Take? {
      FollowsTake(l, s, e, b, served);
    } else {
      OtherMoves(l, s, e, b);
      FollowsBody(l, s.pcs[b], b, Own(s.claims, l.n, b), served);
      hide FollowsAt, Own, Step, Enabled, Shaped, Placed;
    }
    assert served + [] == served;
  }

  lemma {:induction false} FollowsRun(l: Launch, s: State, es: seq<Event>, b: nat, served: seq<nat>)
    requires l.Valid() && l.mode != Static && Shaped(l, s) && IsRun(l, s, es)
    requires b < l.blocks && Placed(l, s) && Follows(l, s, b, served)
    ensures Follows(l, Exec(l, s, es), b, ServedBy(l, s, es, b, served))
    decreases |es|
  {
    if es != [] {
      FollowsStep(l, s, es[0], b, served);
      PlacedStep(l, s, es[0]);
      hide Follows, Placed, Step, Enabled;
      FollowsRun(l, Step(l, s, es[0]), es[1..], b,
                 served + if es[0].Finish? && es[0].block == b then [s.pcs[b].raw] else []);
    }
  }

  lemma FollowsAtEnd(l: Launch, s: State, b: nat, served: seq<nat>)
    requires b < |s.pcs| && s.pcs[b].Exited? && Follows(l, s, b, served)
    ensures var own := Own(s.claims, l.n, b);
            && served == ([b] + own)[..|own|]
            && (forall k :: 0 <= k < |own| - 1 ==> own[k] < l.n)
            && if b >= l.n then own == [] else own != [] && own[|own| - 1] >= l.n
  {
    var own := Own(s.claims, l.n, b);
    hide Own;
    if b < l.n {
      var m := [b] + own;
      assert m[..|own|] == served;
      forall k | 0 <= k < |own| - 1 ensures own[k] < l.n { assert m[k + 1] == own[k] && m[k + 1] == served[k + 1]; }
    }
  }

  /**
   In any run of the launch, a block that has exited served its own id and its claims up to the
   failing one. Its threads, in any interleaving that issues those claims and ends, each ran exactly
   the ids the launch had the block serve; and there is such an interleaving.
   */
  lemma ThreadsServeBlock(l: Launch, mem: map<nat, int>, rows: seq<nat>, es: seq<Event>, b: nat, threads: nat,
                          slot: nat)
    returns (fs: seq<CtaBroadcast.Event>)
    requires l.Valid() && l.mode != Static && IsRun(l, Init(l, mem, rows), es)
    requires b < l.blocks && Outcome(l, mem, rows, es).pcs[b].Exited? && threads > 0
    ensures var c := CtaBroadcast.Cta(threads, l.n, b, true, true);
            var own := Own(Outcome(l, mem, rows, es).claims, l.n, b);
            var served := ServedBy(l, Init(l, mem, rows), es, b, []);
            && Ended(c, slot, own, fs)
            && forall gs, t :: 0 <= t < threads && Ended(c, slot, own, gs) ==>
                 CtaBroadcast.Exec(c, CtaBroadcast.Init(c, slot), gs).served[t] == served
  {
    var c := CtaBroadcast.Cta(threads, l.n, b, true, true);
    var s := Outcome(l, mem, rows, es);
    var own := Own(s.claims, l.n, b);
    var served := ServedBy(l, Init(l, mem, rows), es, b, []);
    FollowsRun(l, Init(l, mem, rows), es, b, []);
    FollowsAtEnd(l, s, b, served);
    fs := CtaRuns.ClaimsHaveRun(c, slot, own);
    forall gs, t | 0 <= t < threads && Ended(c, slot, own, gs)
      ensures CtaBroadcast.Exec(c, CtaBroadcast.Init(c, slot), gs).served[t] == served
    {
      CtaBroadcast.ThreadsAgree(c, slot, gs);
    }
  }

  /** A run of the block's threads that issues these claims and leaves no thread behind. */
  ghost predicate Ended(c: CtaBroadcast.Cta, slot: nat, claims: seq<nat>, gs: seq<CtaBroadcast.Event>) {
    && CtaBroadcast.IsRun(c, CtaBroadcast.Init(c, slot), gs)
    && CtaBroadcast.All(CtaBroadcast.Exec(c, CtaBroadcast.Init(c, slot), gs), CtaBroadcast.Done)
    && CtaBroadcast.Exec(c, CtaBroadcast.Init(c, slot), gs).issued == claims
  }
}
