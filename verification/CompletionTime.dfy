/**
 Total completion time of an order: ascending costs minimise it, descending costs maximise it.
 */
module CompletionTime {
  import opened Prelude

  function SumR(xs: seq<real>): real {
    if xs == [] then 0.0 else SumR(xs[..|xs| - 1]) + xs[|xs| - 1]
  }

  ghost predicate Within(t: seq<real>, order: seq<nat>) {
    forall k :: 0 <= k < |order| ==> order[k] < |t|
  }

  /** When the last of these tasks completes, run one after the other. */
  ghost function Finish(t: seq<real>, order: seq<nat>): real
    requires Within(t, order)
  {
    if order == [] then 0.0 else Finish(t, order[..|order| - 1]) + t[order[|order| - 1]]
  }

  /** The sum of all completion times. */
  ghost function Span(t: seq<real>, order: seq<nat>): real
    requires Within(t, order)
  {
    if order == [] then 0.0 else Span(t, order[..|order| - 1]) + Finish(t, order)
  }

  ghost predicate Ascending(t: seq<real>, order: seq<nat>)
    requires Within(t, order)
  {
    forall i, j :: 0 <= i < j < |order| ==> t[order[i]] <= t[order[j]]
  }

  ghost predicate Descending(t: seq<real>, order: seq<nat>)
    requires Within(t, order)
  {
    forall i, j :: 0 <= i < j < |order| ==> t[order[i]] >= t[order[j]]
  }

  lemma {:induction false} SumRUpdate(xs: seq<real>, i: nat, v: real)
    requires i < |xs|
    ensures SumR(xs[i := v]) == SumR(xs) - xs[i] + v
  {
    var n := |xs| - 1;
    var ys := xs[i := v];
    if i < n {
      SumRUpdate(xs[..n], i, v);
      assert ys[..n] == xs[..n][i := v];
    } else {
      assert ys[..n] == xs[..n];
    }
  }

  lemma {:induction false} SumRMonotone(xs: seq<real>, ys: seq<real>)
    requires |xs| == |ys| && forall i :: 0 <= i < |xs| ==> xs[i] <= ys[i]
    ensures SumR(xs) <= SumR(ys)
  {
    if xs != [] { SumRMonotone(xs[..|xs| - 1], ys[..|ys| - 1]); }
  }

  lemma {:induction false} SumRZero(xs: seq<real>)
    requires forall i :: 0 <= i < |xs| ==> xs[i] == 0.0
    ensures SumR(xs) == 0.0
  {
    if xs != [] { SumRZero(xs[..|xs| - 1]); }
  }

  /** The costs above a threshold c, at the chosen indices and zero elsewhere. */
  function Picked(t: seq<real>, p: seq<nat>, c: real): (xs: seq<real>)
    ensures |xs| == |t|
    ensures forall i :: 0 <= i < |t| ==> xs[i] == if i in p then t[i] - c else 0.0
  {
    seq(|t|, i requires 0 <= i < |t| => if i in p then t[i] - c else 0.0)
  }

  function Offset(k: nat, c: real): real {
    k as real * c
  }

  lemma OffsetSucc(k: nat, c: real)
    ensures Offset(k + 1, c) == Offset(k, c) + c
  {
  }

  lemma PickedStep(t: seq<real>, p: seq<nat>, i: nat, c: real)
    requires i < |t| && i !in p
    ensures Picked(t, p + [i], c) == Picked(t, p, c)[i := t[i] - c]
    ensures SumR(Picked(t, p + [i], c)) == SumR(Picked(t, p, c)) + t[i] - c
  {
    SumRUpdate(Picked(t, p, c), i, t[i] - c);
    assert Picked(t, p + [i], c) == Picked(t, p, c)[i := t[i] - c];
  }

  lemma {:induction false} FinishIsPicked(t: seq<real>, p: seq<nat>, c: real)
    requires Within(t, p) && NoDup(p)
    ensures Finish(t, p) == SumR(Picked(t, p, c)) + Offset(|p|, c)
  {
    if p == [] {
      SumRZero(Picked(t, p, c));
      assert Offset(0, c) == 0.0;
    } else {
      hide Offset, SumR, Picked;
      var n := |p| - 1;
      FinishIsPicked(t, p[..n], c);
      assert p[n] !in p[..n];
      assert p == p[..n] + [p[n]];
      PickedStep(t, p[..n], p[n], c);
      OffsetSucc(n, c);
    }
  }

  /** Under the threshold at place k, no index gains by being left out of the k smallest. */
  lemma PickedLess(t: seq<real>, best: seq<nat>, other: seq<nat>, k: nat, c: real, i: nat)
    requires IsPerm(best, |t|) && Ascending(t, best) && k <= |t| && i < |t|
    requires forall j :: 0 <= j < k ==> t[best[j]] <= c
    requires forall j :: k <= j < |t| ==> c <= t[best[j]]
    ensures Picked(t, best[..k], c)[i] <= Picked(t, other, c)[i]
  {
    PermHitsAll(best, |t|, i);
    var j :| 0 <= j < |t| && best[j] == i;
    if j < k {
      assert best[..k][j] == i;
    } else {
      assert i !in best[..k];
    }
  }

  lemma FinishLess(t: seq<real>, a: seq<nat>, b: seq<nat>, c: real)
    requires Within(t, a) && Within(t, b) && NoDup(a) && NoDup(b) && |a| == |b|
    requires forall i :: 0 <= i < |t| ==> Picked(t, a, c)[i] <= Picked(t, b, c)[i]
    ensures Finish(t, a) <= Finish(t, b)
  {
    hide Offset, Picked, Finish, SumR;
    FinishIsPicked(t, a, c);
    FinishIsPicked(t, b, c);
    SumRMonotone(Picked(t, a, c), Picked(t, b, c));
  }

  /** The first k of an ascending order complete no later than any other k tasks. */
  lemma SmallestFirst(t: seq<real>, best: seq<nat>, any: seq<nat>, k: nat)
    requires IsPerm(best, |t|) && Ascending(t, best) && IsPerm(any, |t|) && k <= |t|
    ensures Finish(t, best[..k]) <= Finish(t, any[..k])
  {
    hide Finish, Picked;
    var c := if k < |t| then t[best[k]] else if k > 0 then t[best[k - 1]] else 0.0;
    forall i: nat | i < |t| ensures Picked(t, best[..k], c)[i] <= Picked(t, any[..k], c)[i] {
      PickedLess(t, best, any[..k], k, c, i);
    }
    FinishLess(t, best[..k], any[..k], c);
  }

  lemma {:induction false} SpanPrefix(t: seq<real>, best: seq<nat>, any: seq<nat>, k: nat)
    requires IsPerm(best, |t|) && Ascending(t, best) && IsPerm(any, |t|) && k <= |t|
    ensures Span(t, best[..k]) <= Span(t, any[..k])
  {
    if k > 0 {
      SpanPrefix(t, best, any, k - 1);
      SmallestFirst(t, best, any, k);
      assert best[..k][..k - 1] == best[..k - 1];
      assert any[..k][..k - 1] == any[..k - 1];
    }
  }

  /** No order of all tasks has a smaller total completion time than an ascending one. */
  lemma AscendingMinimises(t: seq<real>, best: seq<nat>, any: seq<nat>)
    requires IsPerm(best, |t|) && Ascending(t, best) && IsPerm(any, |t|)
    ensures Span(t, best) <= Span(t, any)
  {
    SpanPrefix(t, best, any, |t|);
    assert best[..|t|] == best && any[..|t|] == any;
  }

  function Negated(t: seq<real>): (u: seq<real>)
    ensures |u| == |t| && forall i :: 0 <= i < |t| ==> u[i] == -t[i]
  {
    seq(|t|, i requires 0 <= i < |t| => -t[i])
  }

  lemma {:induction false} SpanNegated(t: seq<real>, order: seq<nat>)
    requires Within(t, order)
    ensures Finish(Negated(t), order) == -Finish(t, order)
    ensures Span(Negated(t), order) == -Span(t, order)
  {
    if order != [] { SpanNegated(t, order[..|order| - 1]); }
  }

  /** And none has a larger one than a descending order. */
  lemma DescendingMaximises(t: seq<real>, worst: seq<nat>, any: seq<nat>)
    requires IsPerm(worst, |t|) && Descending(t, worst) && IsPerm(any, |t|)
    ensures Span(t, worst) >= Span(t, any)
  {
    SpanNegated(t, worst);
    SpanNegated(t, any);
    AscendingMinimises(Negated(t), worst, any);
  }

  /** One pass with two accumulators. */
  method ComputeSpan(t: seq<real>, order: seq<nat>) returns (s: real)
    requires Within(t, order)
    ensures s == Span(t, order)
  {
    var c := 0.0;
    s := 0.0;
    for k := 0 to |order|
      invariant c == Finish(t, order[..k]) && s == Span(t, order[..k])
    {
      assert order[..k + 1][..k] == order[..k];
      c := c + t[order[k]];
      s := s + c;
    }
    assert order[..|order|] == order;
  }
}
