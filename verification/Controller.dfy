/**
 The controller: estimate, order, and damp. An order is kept unless the new one improves the
 predicted total completion time by more than the dead-band.
 */
module Controller {
  import opened Prelude
  import opened LeastSquares
  import opened CompletionTime
  import opened Sorting

  datatype Policy = Lpt | Srpt | Edf | Unknown

  datatype Failure = UnknownPolicy | MissingDeadlines | IndexOutOfRange

  datatype Result<+T> = Ok(value: T) | Err(failure: Failure)

  const TINY: real := 0.000000001

  function MaxR(a: real, b: real): real {
    if a < b then b else a
  }

  /** What each policy sorts by, ascending; a missing elapsed list counts as zeros. */
  function Keys(policy: Policy, t: seq<real>, deadlines: Option<seq<real>>, elapsed: Option<seq<real>>):
    (k: Result<seq<real>>)
    ensures k.Ok? ==> |k.value| == |t|
  {
    match policy
    case Lpt => Ok(Negated(t))
    case Srpt => Ok(t)
    case Edf =>
      if deadlines.None? then Err(MissingDeadlines)
      else
        var el := if elapsed.Some? && elapsed.value != [] then elapsed.value else seq(|t|, _ => 0.0);
        if |deadlines.value| < |t| || |el| < |t| then Err(IndexOutOfRange)
        else Ok(seq(|t|, i requires 0 <= i < |t| => deadlines.value[i] - el[i] - t[i]))
    case Unknown => Err(UnknownPolicy)
  }

  /** What is left of a request's deadline after the time it has run and the time it is predicted to take. */
  function Slack(t: seq<real>, deadlines: seq<real>, elapsed: Option<seq<real>>, i: nat): real
    requires i < |t| && i < |deadlines|
    requires elapsed.Some? && elapsed.value != [] ==> i < |elapsed.value|
  {
    deadlines[i] - (if elapsed.Some? && elapsed.value != [] then elapsed.value[i] else 0.0) - t[i]
  }

  /** Sorting by its keys makes each policy what it is called. */
  lemma PolicyMeaning(policy: Policy, t: seq<real>, deadlines: Option<seq<real>>, elapsed: Option<seq<real>>,
                      order: seq<nat>)
    requires Keys(policy, t, deadlines, elapsed).Ok? && IsPerm(order, |t|)
    requires StablySorted(Keys(policy, t, deadlines, elapsed).value, order)
    ensures policy == Lpt ==> Descending(t, order)
    ensures policy == Srpt ==> Ascending(t, order)
    ensures policy == Edf ==>
              && deadlines.Some? && |t| <= |deadlines.value|
              && (elapsed.Some? && elapsed.value != [] ==> |t| <= |elapsed.value|)
              && forall i, j :: 0 <= i < j < |order| ==>
                   Slack(t, deadlines.value, elapsed, order[i]) <= Slack(t, deadlines.value, elapsed, order[j])
  {
    var keys := Keys(policy, t, deadlines, elapsed).value;
    forall i, j | 0 <= i < j < |order| ensures keys[order[i]] <= keys[order[j]] {
    }
  }

  /** Which calls fail, and how: edf without deadlines or with too short a list, and unknown policies. */
  lemma KeysFail(policy: Policy, t: seq<real>, deadlines: Option<seq<real>>, elapsed: Option<seq<real>>)
    ensures var short := (deadlines.Some? && |deadlines.value| < |t|)
                         || (elapsed.Some? && elapsed.value != [] && |elapsed.value| < |t|);
            var k := Keys(policy, t, deadlines, elapsed);
            && (k == Err(UnknownPolicy) <==> policy == Unknown)
            && (k == Err(MissingDeadlines) <==> policy == Edf && deadlines.None?)
            && (k == Err(IndexOutOfRange) <==> policy == Edf && deadlines.Some? && short)
  {
  }

  /** The improvement the dead-band asks for over an order of this span. */
  function Threshold(deadband: real, span: real): real {
    deadband * MaxR(span, TINY)
  }

  lemma ThresholdGrows(deadband: real, span: real, larger: real)
    requires deadband >= 0.0 && span <= larger
    ensures 0.0 <= Threshold(deadband, span) <= Threshold(deadband, larger)
    ensures deadband > 0.0 ==> Threshold(deadband, span) > 0.0
  {
    var a, b := MaxR(span, TINY), MaxR(larger, TINY);
    assert deadband * b == deadband * a + deadband * (b - a);
  }

  /** What the dead-band leaves in force. */
  ghost function Damped(t: seq<real>, last: seq<nat>, proposed: seq<nat>, deadband: real): seq<nat>
    requires Within(t, proposed) && (|last| == |t| ==> Within(t, last))
  {
    if |last| == |t| && Span(t, last) - Span(t, proposed) < Threshold(deadband, Span(t, proposed)) then last
    else proposed
  }

  /** An order of the right length stays unless the proposal gains the dead-band, on a span of at least 1e-9. */
  lemma DampedIff(t: seq<real>, last: seq<nat>, proposed: seq<nat>, deadband: real)
    requires Within(t, proposed) && (|last| == |t| ==> Within(t, last)) && last != proposed
    ensures var after := Span(t, proposed);
            var needed := deadband * (if after < 0.000000001 then 0.000000001 else after);
            Damped(t, last, proposed, deadband) == last <==> |last| == |t| && Span(t, last) - after < needed
  {
    hide Span, Within;
  }

  /** Under shortest-first the order in force is within the dead-band of every permutation. */
  lemma SrptWithinDeadband(t: seq<real>, last: seq<nat>, proposed: seq<nat>, deadband: real, any: seq<nat>)
    requires IsPerm(proposed, |t|) && Ascending(t, proposed) && IsPerm(any, |t|)
    requires (|last| == |t| ==> IsPerm(last, |t|)) && deadband >= 0.0
    ensures Span(t, Damped(t, last, proposed, deadband)) <= Span(t, any) + Threshold(deadband, Span(t, any))
  {
    hide Span, Threshold, NoDup;
    AscendingMinimises(t, proposed, any);
    ThresholdGrows(deadband, Span(t, proposed), Span(t, any));
  }

  lemma ThresholdNegative(deadband: real, span: real)
    requires deadband < 0.0
    ensures Threshold(deadband, span) < 0.0
  {
    ThresholdGrows(-deadband, span, span);
    assert Threshold(-deadband, span) == -Threshold(deadband, span);
  }

  /** With a negative dead-band the order in force is the best there is. */
  lemma SrptBelowZero(t: seq<real>, last: seq<nat>, proposed: seq<nat>, deadband: real, any: seq<nat>)
    requires IsPerm(proposed, |t|) && Ascending(t, proposed) && IsPerm(any, |t|)
    requires (|last| == |t| ==> IsPerm(last, |t|)) && deadband < 0.0
    ensures Span(t, Damped(t, last, proposed, deadband)) <= Span(t, any)
  {
    hide Span, Threshold, NoDup;
    AscendingMinimises(t, proposed, any);
    if |last| == |t| { AscendingMinimises(t, proposed, last); }
    ThresholdNegative(deadband, Span(t, proposed));
  }

  /** Under longest-first the fresh order has the largest span there is, so it never replaces one. */
  lemma LptNeverReplaces(t: seq<real>, last: seq<nat>, proposed: seq<nat>, deadband: real)
    requires IsPerm(proposed, |t|) && Descending(t, proposed) && IsPerm(last, |t|) && deadband > 0.0
    ensures Damped(t, last, proposed, deadband) == last
  {
    hide Span, Threshold, NoDup;
    DescendingMaximises(t, proposed, last);
    ThresholdGrows(deadband, Span(t, proposed), Span(t, proposed));
  }

  /** One decision: the predicted costs and the order the policy proposes for them. */
  datatype Decision = Decision(costs: seq<real>, proposed: seq<nat>)
  {
    ghost predicate Fits(n: nat) {
      |costs| == n && IsPerm(proposed, n)
    }

    ghost predicate LongestFirst(n: nat) {
      Fits(n) && Descending(costs, proposed)
    }
  }

  /** The order in force after a run of decisions. */
  ghost function Run(last: seq<nat>, ds: seq<Decision>, deadband: real): seq<nat>
    requires IsPerm(last, |last|) && forall i :: 0 <= i < |ds| ==> ds[i].Fits(|last|)
    decreases |ds|
  {
    if ds == [] then last
    else
      assert ds[0].Fits(|last|);
      assert Within(ds[0].costs, ds[0].proposed);
      Run(Damped(ds[0].costs, last, ds[0].proposed, deadband), ds[1..], deadband)
  }

  /** Over a whole longest-first run of same-length batches, whatever their costs, the first order stays. */
  lemma {:induction false} LptRunFrozen(last: seq<nat>, ds: seq<Decision>, deadband: real)
    requires IsPerm(last, |last|) && deadband > 0.0
    requires forall i :: 0 <= i < |ds| ==> ds[i].Fits(|last|) && ds[i].LongestFirst(|last|)
    ensures Run(last, ds, deadband) == last
    decreases |ds|
  {
    if ds != [] {
      assert ds[0].LongestFirst(|last|);
      LptNeverReplaces(ds[0].costs, last, ds[0].proposed, deadband);
      LptRunFrozen(last, ds[1..], deadband);
    }
  }

  ghost predicate LongestRun(n: nat, ds: seq<Decision>) {
    forall i :: 0 <= i < |ds| ==> ds[i].Fits(n) && ds[i].LongestFirst(n)
  }

  /** Without a dead-band two tiles of equal cost are swapped back. */
  lemma LptSwaps(deadband: real)
    requires deadband <= 0.0
    ensures LongestRun(2, [Decision([1.0, 1.0], [0, 1])])
    ensures Run([1, 0], [Decision([1.0, 1.0], [0, 1])], deadband) == [0, 1]
  {
    var t, d := [1.0, 1.0], Decision([1.0, 1.0], [0, 1]);
    assert d.Fits(2) && d.LongestFirst(2);
    DescendingMaximises(t, [0, 1], [1, 0]);
    DescendingMaximises(t, [1, 0], [0, 1]);
    hide Span;
    assert Threshold(deadband, Span(t, [0, 1])) <= 0.0;
    assert Damped(t, [1, 0], [0, 1], deadband) == [0, 1];
    assert [d][1..] == [];
  }

  /** Longest-first freezes every run of same-length batches exactly when the dead-band is positive. */
  lemma LptFrozenIff(deadband: real)
    ensures (forall last: seq<nat>, ds: seq<Decision> ::
               IsPerm(last, |last|) && LongestRun(|last|, ds) ==> Run(last, ds, deadband) == last)
            <==> deadband > 0.0
  {
    if deadband > 0.0 {
      forall last: seq<nat>, ds: seq<Decision> | IsPerm(last, |last|) && LongestRun(|last|, ds)
        ensures Run(last, ds, deadband) == last
      {
        LptRunFrozen(last, ds, deadband);
      }
    } else {
      LptSwaps(deadband);
      var last: seq<nat> := [1, 0];
      assert last != [0, 1] && IsPerm(last, |last|);
    }
  }

  function Predict(h: seq<Sample>, x: real, resid: real): real {
    var (alpha, beta) := CoeffsOf(h);
    MaxR(Times(alpha, x) + beta + resid, 0.0)
  }

  function ResidOf(resid: map<int, real>, rid: int): real {
    if rid in resid then resid[rid] else 0.0
  }

  datatype Measured = Measured(rid: int, kv: real, cycles: real)

  /** The samples an observation adds: those with positive cycles, in order. */
  function SamplesOf(ms: seq<Measured>): seq<Sample> {
    if ms == [] then []
    else
      var m := ms[|ms| - 1];
      SamplesOf(ms[..|ms| - 1]) + if m.cycles <= 0.0 then [] else [Sample(m.kv, m.cycles)]
  }

  function Smoothed(ewma: real, before: real, now: real): real {
    (1.0 - ewma) * before + ewma * now
  }

  /** The residuals after an observation: each prediction already includes its own sample. */
  function ResidsAfter(h: seq<Sample>, resid: map<int, real>, ms: seq<Measured>, ewma: real): map<int, real> {
    if ms == [] then resid
    else
      var m := ms[|ms| - 1];
      var front := ms[..|ms| - 1];
      var r := ResidsAfter(h, resid, front, ewma);
      if m.cycles <= 0.0 then r
      else
        var pred := Predict(h + SamplesOf(ms), m.kv, 0.0);
        r[m.rid := Smoothed(ewma, ResidOf(r, m.rid), m.cycles - pred)]
  }

  /** A request that was not measured keeps its residual. */
  lemma {:induction false} UnmeasuredUntouched(h: seq<Sample>, resid: map<int, real>, ms: seq<Measured>,
                                               ewma: real, rid: int)
    requires forall k :: 0 <= k < |ms| && ms[k].cycles > 0.0 ==> ms[k].rid != rid
    ensures rid in ResidsAfter(h, resid, ms, ewma) <==> rid in resid
    ensures ResidOf(ResidsAfter(h, resid, ms, ewma), rid) == ResidOf(resid, rid)
  {
    if ms != [] {
      UnmeasuredUntouched(h, resid, ms[..|ms| - 1], ewma, rid);
    }
  }

  /** Once requests have cost a k + b cycles for k tokens, one of x tokens is predicted that and its residual. */
  lemma PredictsLine(h: seq<Sample>, a: real, b: real, x: real, resid: real)
    requires !SameX(h) && forall i :: 0 <= i < |h| ==> h[i].y == Times(a, h[i].x) + b
    ensures Predict(h, x, resid)
            == if a * x + b + resid >= 0.0 then a * x + b + resid else 0.0
  {
    LineRecovered(h, a, b);
    hide CoeffsOf;
  }

  lemma SmoothedGap(ewma: real, before: real, now: real)
    ensures Smoothed(ewma, before, now) - now == (1.0 - ewma) * (before - now)
  {
  }

  /**
   Each measurement takes a request's residual, 0 at first, ewma of the way to the error of the fit
   that already includes it.
   */
  lemma ResidualMoves(h: seq<Sample>, resid: map<int, real>, ms: seq<Measured>, m: Measured, ewma: real)
    requires m.cycles > 0.0
    ensures var before, after := ResidsAfter(h, resid, ms, ewma), ResidsAfter(h, resid, ms + [m], ewma);
            var error := m.cycles - Predict(h + SamplesOf(ms) + [Sample(m.kv, m.cycles)], m.kv, 0.0);
            && m.rid in after && after == before[m.rid := after[m.rid]]
            && after[m.rid] - error == (1.0 - ewma) * ((if m.rid in before then before[m.rid] else 0.0) - error)
  {
    hide Predict, Smoothed;
    var own := [Sample(m.kv, m.cycles)];
    assert (ms + [m])[..|ms|] == ms && h + (SamplesOf(ms) + own) == h + SamplesOf(ms) + own;
    SmoothedGap(ewma, ResidOf(ResidsAfter(h, resid, ms, ewma), m.rid),
                m.cycles - Predict(h + SamplesOf(ms) + own, m.kv, 0.0));
  }

  /** A measurement with positive cycles adds its tokens and cycles to the samples, any other nothing. */
  lemma SamplesGrow(ms: seq<Measured>, m: Measured)
    ensures SamplesOf([]) == []
    ensures SamplesOf(ms + [m]) == if m.cycles > 0.0 then SamplesOf(ms) + [Sample(m.kv, m.cycles)] else SamplesOf(ms)
  {
    assert (ms + [m])[..|ms|] == ms;
  }

  class ControlPlane {
    const policy: Policy
    const ewma: real
    const deadband: real
    const fit: Fit
    var resid: map<int, real>
    var lastOrder: seq<nat>

    ghost predicate Valid()
      reads this, fit
    {
      fit.Valid() && IsPerm(lastOrder, |lastOrder|)
    }

    constructor (policy: Policy, ewma: real, deadband: real)
      ensures Valid() && fresh(fit) && fit.history == [] && resid == map[] && lastOrder == []
      ensures this.policy == policy && this.ewma == ewma && this.deadband == deadband
    {
      this.policy, this.ewma, this.deadband := policy, ewma, deadband;
      fit := new Fit();
      resid, lastOrder := map[], [];
    }

    method PredictOne(kv: real, rid: Option<int>) returns (t: real)
      requires Valid()
      ensures t == Predict(fit.history, kv, if rid.Some? then ResidOf(resid, rid.value) else 0.0)
      ensures t >= 0.0
    {
      hide Times, CoeffsOf, Optimal, SameX, SumX, SumY;
      var alpha, beta := fit.GetCoeffs();
      t := Times(alpha, kv) + beta;
      if rid.Some? {
        t := t + ResidOf(resid, rid.value);
      }
      if t < 0.0 {
        t := 0.0;
      }
    }

    /** Fold one step's measured cycles into the model; unmeasured requests are skipped. */
    method Observe(ms: seq<Measured>)
      requires Valid()
      modifies this`resid, fit
      ensures Valid()
      ensures fit.history == old(fit.history) + SamplesOf(ms)
      ensures resid == ResidsAfter(old(fit.history), old(resid), ms, ewma)
    {
      hide Predict, Smoothed;
      ghost var h := fit.history;
      assert SamplesOf(ms[..0]) == [] && h + [] == h;
      for k := 0 to |ms|
        invariant Valid() && fit.history == h + SamplesOf(ms[..k])
        invariant resid == ResidsAfter(h, old(resid), ms[..k], ewma)
      {
        var m := ms[k];
        assert ms[..k + 1][..k] == ms[..k];
        if m.cycles > 0.0 {
          fit.Add(m.kv, m.cycles);
          assert fit.history == h + SamplesOf(ms[..k + 1]);
          var pred := PredictOne(m.kv, None);
          assert ms[..k + 1][k] == m;
          assert pred == Predict(h + SamplesOf(ms[..k + 1]), m.kv, 0.0);
          resid := resid[m.rid := Smoothed(ewma, ResidOf(resid, m.rid), m.cycles - pred)];
        }
      }
      assert ms[..|ms|] == ms;
    }

    method Predictions(rids: seq<int>, kvs: seq<real>) returns (t: seq<real>)
      requires Valid()
      ensures |t| == if |rids| <= |kvs| then |rids| else |kvs|
      ensures forall i :: 0 <= i < |t| ==> t[i] == Predict(fit.history, kvs[i], ResidOf(resid, rids[i]))
    {
      var n := if |rids| <= |kvs| then |rids| else |kvs|;
      t := [];
      for i := 0 to n
        invariant |t| == i
        invariant forall j :: 0 <= j < i ==> t[j] == Predict(fit.history, kvs[j], ResidOf(resid, rids[j]))
      {
        var p := PredictOne(kvs[i], Some(rids[i]));
        t := t + [p];
      }
    }

    /** The order the configured policy proposes, or why there is none. */
    method Propose(t: seq<real>, deadlines: Option<seq<real>>, elapsed: Option<seq<real>>)
      returns (r: Result<seq<nat>>)
      ensures r.Ok? <==> Keys(policy, t, deadlines, elapsed).Ok?
      ensures r.Ok? ==> IsPerm(r.value, |t|) && StablySorted(Keys(policy, t, deadlines, elapsed).value, r.value)
      ensures r.Err? ==> r.failure == Keys(policy, t, deadlines, elapsed).failure
    {
      var keys := Keys(policy, t, deadlines, elapsed);
      if keys.Err? {
        return Err(keys.failure);
      }
      var order := StableSort(keys.value);
      r := Ok(order);
    }

    /**
     The slot order under the configured policy, damped: the proposal, unless the previous order
     has the right length and the proposal gains too little. It is always a permutation of the
     batch; under shortest-first it is within the dead-band of the best one, and under
     longest-first an order of the right length is kept for ever.
     */
    method Order(rids: seq<int>, kvs: seq<real>, deadlines: Option<seq<real>>, elapsed: Option<seq<real>>)
      returns (r: Result<seq<nat>>, ghost t: seq<real>, ghost proposed: seq<nat>)
      requires Valid()
      modifies this`lastOrder
      ensures Valid() && |t| == (if |rids| <= |kvs| then |rids| else |kvs|)
      ensures forall i :: 0 <= i < |t| ==> t[i] == Predict(fit.history, kvs[i], ResidOf(resid, rids[i]))
      ensures r.Ok? <==> Keys(policy, t, deadlines, elapsed).Ok?
      ensures r.Ok? ==>
                && IsPerm(proposed, |t|) && StablySorted(Keys(policy, t, deadlines, elapsed).value, proposed)
                && r.value == Damped(t, old(lastOrder), proposed, deadband)
      ensures r.Ok? ==> IsPerm(r.value, |t|) && lastOrder == r.value
      ensures r.Err? ==>
                lastOrder == old(lastOrder) && r.failure == Keys(policy, t, deadlines, elapsed).failure
      ensures policy == Srpt ==> r.Ok? && forall any: seq<nat> :: IsPerm(any, |t|) ==>
                Span(t, r.value) <= Span(t, any) + if deadband >= 0.0 then Threshold(deadband, Span(t, any)) else 0.0
      ensures policy == Lpt && |old(lastOrder)| == |t| && deadband > 0.0 ==> r == Ok(old(lastOrder))
    {
      hide Predict, Threshold, Span;
      var costs := Predictions(rids, kvs);
      t, proposed := costs, [];
      r := Propose(costs, deadlines, elapsed);
      if r.Err? {
        return;
      }
      proposed := r.value;
      ghost var last := lastOrder;
      if |lastOrder| == |costs| {
        var before := ComputeSpan(costs, lastOrder);
        var after := ComputeSpan(costs, r.value);
        if before - after < Threshold(deadband, after) {
          r := Ok(lastOrder);
        }
      }
      lastOrder := r.value;
      if policy == Srpt {
        forall any: seq<nat> | IsPerm(any, |t|)
          ensures Span(t, r.value) <= Span(t, any) + if deadband >= 0.0 then Threshold(deadband, Span(t, any)) else 0.0
        {
          if deadband >= 0.0 {
            SrptWithinDeadband(t, last, proposed, deadband, any);
          } else {
            SrptBelowZero(t, last, proposed, deadband, any);
          }
        }
      }
      if policy == Lpt && |last| == |t| && deadband > 0.0 {
        LptNeverReplaces(t, last, proposed, deadband);
      }
    }
  }
}
