/**
 Least squares over the samples seen so far, from five running sums.

 Products are written Times(a, b), and the inductive lemmas hide its body, so that each
 of them is settled by one small identity about reals.
 */
module LeastSquares {
  import opened Prelude

  datatype Sample = Sample(x: real, y: real)

  function Times(a: real, b: real): real {
    a * b
  }

  function Square(r: real): real {
    r * r
  }

  function SumX(h: seq<Sample>): real {
    if h == [] then 0.0 else SumX(h[..|h| - 1]) + h[|h| - 1].x
  }

  function SumY(h: seq<Sample>): real {
    if h == [] then 0.0 else SumY(h[..|h| - 1]) + h[|h| - 1].y
  }

  function SumXX(h: seq<Sample>): real {
    if h == [] then 0.0 else SumXX(h[..|h| - 1]) + Square(h[|h| - 1].x)
  }

  function SumXY(h: seq<Sample>): real {
    if h == [] then 0.0 else SumXY(h[..|h| - 1]) + Times(h[|h| - 1].x, h[|h| - 1].y)
  }

  function Residual(s: Sample, a: real, b: real): real {
    s.y - Times(a, s.x) - b
  }

  /** Sum of squared errors of the line y = a x + b over the history. */
  function Sse(h: seq<Sample>, a: real, b: real): real {
    if h == [] then 0.0 else Sse(h[..|h| - 1], a, b) + Square(Residual(h[|h| - 1], a, b))
  }

  /** The line's total error, plain and weighted by x: the two normal equations. */
  function Err0(h: seq<Sample>, a: real, b: real): real {
    if h == [] then 0.0 else Err0(h[..|h| - 1], a, b) + Residual(h[|h| - 1], a, b)
  }

  function Err1(h: seq<Sample>, a: real, b: real): real {
    if h == [] then 0.0 else Err1(h[..|h| - 1], a, b) + Times(Residual(h[|h| - 1], a, b), h[|h| - 1].x)
  }

  /** Squared size of the line d x + e over the history. */
  function Size(h: seq<Sample>, d: real, e: real): real {
    if h == [] then 0.0 else Size(h[..|h| - 1], d, e) + Square(Times(d, h[|h| - 1].x) + e)
  }

  function Determinant(h: seq<Sample>): real {
    Times(|h| as real, SumXX(h)) - Square(SumX(h))
  }

  ghost predicate SameX(h: seq<Sample>) {
    forall i, j :: 0 <= i < j < |h| ==> h[i].x == h[j].x
  }

  ghost predicate Optimal(h: seq<Sample>, a: real, b: real) {
    forall c, d :: Sse(h, a, b) <= Sse(h, c, d)
  }

  // ------------------------------------------------------------------
  // Identities about reals.
  // ------------------------------------------------------------------

  lemma Positive(a: real, b: real)
    requires a > 0.0 && b > 0.0
    ensures Times(a, b) > 0.0
  {
  }

  lemma SquareSign(r: real)
    ensures Square(r) >= 0.0 && (Square(r) == 0.0 <==> r == 0.0)
  {
    if r > 0.0 {
      Positive(r, r);
    } else if r < 0.0 {
      Positive(-r, -r);
      assert Times(-r, -r) == Square(r);
    }
  }

  lemma ExpandDeviation(n: real, x: real, c: real, sxx: real, sx: real, rest: real)
    requires rest == sxx - 2.0 * Times(c, sx) + Times(n, Square(c))
    ensures rest + Square(Times(1.0, x) + -c)
            == (sxx + Square(x)) - 2.0 * Times(c, sx + x) + Times(n + 1.0, Square(c))
  {
  }

  lemma DeterminantGrows(n: real, sxx: real, sx: real, x: real, dev: real)
    requires dev == sxx - 2.0 * Times(x, sx) + Times(n, Square(x))
    ensures Times(n + 1.0, sxx + Square(x)) - Square(sx + x) == (Times(n, sxx) - Square(sx)) + dev
  {
  }

  lemma ShiftTerm(shifted: real, sse: real, e1: real, e0: real, size: real, r: real, x: real, d: real, e: real)
    requires shifted == sse - 2.0 * (Times(d, e1) + Times(e, e0)) + size
    ensures shifted + Square(r - (Times(d, x) + e))
            == (sse + Square(r)) - 2.0 * (Times(d, e1 + Times(r, x)) + Times(e, e0 + r))
               + (size + Square(Times(d, x) + e))
  {
  }

  lemma ShiftLine(s: Sample, a: real, b: real, d: real, e: real)
    ensures Residual(s, a + d, b + e) == Residual(s, a, b) - (Times(d, s.x) + e)
  {
  }

  lemma PlainTerm(e0: real, sy: real, sx: real, n: real, s: Sample, a: real, b: real)
    requires e0 == sy - Times(a, sx) - Times(n, b)
    ensures e0 + Residual(s, a, b) == (sy + s.y) - Times(a, sx + s.x) - Times(n + 1.0, b)
  {
  }

  lemma WeightedTerm(e1: real, sxy: real, sxx: real, sx: real, s: Sample, a: real, b: real)
    requires e1 == sxy - Times(a, sxx) - Times(b, sx)
    ensures e1 + Times(Residual(s, a, b), s.x)
            == (sxy + Times(s.x, s.y)) - Times(a, sxx + Square(s.x)) - Times(b, sx + s.x)
  {
  }

  // ------------------------------------------------------------------
  // The determinant.
  // ------------------------------------------------------------------

  lemma {:induction false} SizeNonNegative(h: seq<Sample>, d: real, e: real)
    ensures Size(h, d, e) >= 0.0
    ensures Size(h, d, e) == 0.0 <==> forall i :: 0 <= i < |h| ==> Times(d, h[i].x) + e == 0.0
  {
    if h != [] {
      hide Square, Times;
      SizeNonNegative(h[..|h| - 1], d, e);
      SquareSign(Times(d, h[|h| - 1].x) + e);
    }
  }

  lemma {:induction false} DeviationSums(h: seq<Sample>, c: real)
    ensures Size(h, 1.0, -c) == SumXX(h) - 2.0 * Times(c, SumX(h)) + Times(|h| as real, Square(c))
  {
    if h != [] {
      hide Square, Times;
      var n := |h| - 1;
      DeviationSums(h[..n], c);
      ExpandDeviation(n as real, h[n].x, c, SumXX(h[..n]), SumX(h[..n]), Size(h[..n], 1.0, -c));
    }
  }

  lemma DeterminantStep(h: seq<Sample>)
    requires h != []
    ensures var n := |h| - 1;
            Determinant(h) == Determinant(h[..n]) + Size(h[..n], 1.0, -h[n].x)
  {
    hide Square, Times;
    var n := |h| - 1;
    var x := h[n].x;
    DeviationSums(h[..n], x);
    DeterminantGrows(n as real, SumXX(h[..n]), SumX(h[..n]), x, Size(h[..n], 1.0, -x));
  }

  lemma SameXStep(h: seq<Sample>)
    requires h != []
    ensures var n := |h| - 1;
            SameX(h) <==> SameX(h[..n]) && Size(h[..n], 1.0, -h[n].x) == 0.0
  {
    var n := |h| - 1;
    SizeNonNegative(h[..n], 1.0, -h[n].x);
    if SameX(h) {
      assert forall i :: 0 <= i < n ==> h[..n][i].x == h[n].x;
    }
    if SameX(h[..n]) && Size(h[..n], 1.0, -h[n].x) == 0.0 {
      forall i, j | 0 <= i < j < |h| ensures h[i].x == h[j].x {
        assert Times(1.0, h[..n][i].x) + -h[n].x == 0.0;
        if j < n { assert h[..n][i].x == h[..n][j].x; }
      }
    }
  }

  /** n sxx - sx^2 is never negative, and vanishes exactly when all x are equal. */
  lemma {:induction false} DeterminantSign(h: seq<Sample>)
    ensures Determinant(h) >= 0.0 && (Determinant(h) == 0.0 <==> SameX(h))
  {
    if h != [] {
      hide Square, Times;
      var n := |h| - 1;
      DeterminantSign(h[..n]);
      DeterminantStep(h);
      SameXStep(h);
      SizeNonNegative(h[..n], 1.0, -h[n].x);
    } else {
      assert Determinant(h) == 0.0;
    }
  }

  // ------------------------------------------------------------------
  // Optimality.
  // ------------------------------------------------------------------

  /** Moving the line by (d, e) changes the error by the normal equations and a square. */
  lemma {:induction false} SseShift(h: seq<Sample>, a: real, b: real, d: real, e: real)
    ensures Sse(h, a + d, b + e)
            == Sse(h, a, b) - 2.0 * (Times(d, Err1(h, a, b)) + Times(e, Err0(h, a, b))) + Size(h, d, e)
  {
    if h != [] {
      hide Residual, Square, Times;
      var n := |h| - 1;
      SseShift(h[..n], a, b, d, e);
      ShiftLine(h[n], a, b, d, e);
      ShiftTerm(Sse(h[..n], a + d, b + e), Sse(h[..n], a, b), Err1(h[..n], a, b), Err0(h[..n], a, b),
                Size(h[..n], d, e), Residual(h[n], a, b), h[n].x, d, e);
    }
  }

  lemma {:induction false} PlainErrSums(h: seq<Sample>, a: real, b: real)
    ensures Err0(h, a, b) == SumY(h) - Times(a, SumX(h)) - Times(|h| as real, b)
  {
    if h != [] {
      hide Residual, Times;
      var n := |h| - 1;
      PlainErrSums(h[..n], a, b);
      PlainTerm(Err0(h[..n], a, b), SumY(h[..n]), SumX(h[..n]), n as real, h[n], a, b);
    }
  }

  lemma {:induction false} WeightedErrSums(h: seq<Sample>, a: real, b: real)
    ensures Err1(h, a, b) == SumXY(h) - Times(a, SumXX(h)) - Times(b, SumX(h))
  {
    if h != [] {
      hide Residual, Square, Times;
      var n := |h| - 1;
      WeightedErrSums(h[..n], a, b);
      WeightedTerm(Err1(h[..n], a, b), SumXY(h[..n]), SumXX(h[..n]), SumX(h[..n]), h[n], a, b);
    }
  }

  lemma NormalImpliesOptimal(h: seq<Sample>, a: real, b: real)
    requires Err0(h, a, b) == 0.0 && Err1(h, a, b) == 0.0
    ensures Optimal(h, a, b)
  {
    forall c, d ensures Sse(h, a, b) <= Sse(h, c, d) {
      hide Sse, Err0, Err1, Size;
      SseShift(h, a, b, c - a, d - b);
      SizeNonNegative(h, c - a, d - b);
    }
  }

  lemma {:induction false} SizeOfConstant(h: seq<Sample>, e: real)
    ensures Size(h, 0.0, e) == Times(|h| as real, Square(e))
  {
    if h != [] { SizeOfConstant(h[..|h| - 1], e); }
  }

  lemma NoBetterShift(n: real, e: real, r: real, sse: real, shifted: real)
    requires n > 0.0 && Times(e, n) == r && sse <= shifted
    requires shifted == sse - 2.0 * Times(e, r) + Times(n, Square(e))
    ensures r == 0.0
  {
    assert Times(n, Square(e)) == Times(e, r);
    SquareSign(e);
    if e != 0.0 { Positive(n, Square(e)); }
  }

  lemma LevelShift(h: seq<Sample>, a: real, b: real, e: real)
    ensures Sse(h, a, b + e) == Sse(h, a, b) - 2.0 * Times(e, Err0(h, a, b)) + Times(|h| as real, Square(e))
  {
    hide Sse, Err0, Err1, Size;
    SseShift(h, a, b, 0.0, e);
    SizeOfConstant(h, e);
    assert a + 0.0 == a;
  }

  /** An optimal line has no total error: otherwise raising or lowering it would help. */
  lemma OptimalImpliesCentred(h: seq<Sample>, a: real, b: real)
    requires h != [] && Optimal(h, a, b)
    ensures Err0(h, a, b) == 0.0
  {
    hide Sse, Err0;
    var n, r := |h| as real, Err0(h, a, b);
    var e := r / n;
    LevelShift(h, a, b, e);
    assert Sse(h, a, b) <= Sse(h, a, b + e);
    NoBetterShift(n, e, r, Sse(h, a, b), Sse(h, a, b + e));
  }

  // ------------------------------------------------------------------
  // The fitted coefficients.
  // ------------------------------------------------------------------

  /** Fewer than two samples, or a vanishing determinant: proportional through the origin, or (1, 0). */
  function Coeffs(n: nat, sx: real, sy: real, sxx: real, sxy: real): (real, real) {
    var den := Times(n as real, sxx) - Square(sx);
    if n < 2 || den <= 0.0 then
      if sx > 0.0 then (sy / sx, 0.0) else (1.0, 0.0)
    else
      var alpha := (Times(n as real, sxy) - Times(sx, sy)) / den;
      (alpha, (sy - Times(alpha, sx)) / n as real)
  }

  function CoeffsOf(h: seq<Sample>): (real, real) {
    Coeffs(|h|, SumX(h), SumY(h), SumXX(h), SumXY(h))
  }

  lemma SolveNormal(n: real, sx: real, sy: real, sxx: real, sxy: real, alpha: real, beta: real)
    requires n > 0.0
    requires Times(alpha, Times(n, sxx) - Square(sx)) == Times(n, sxy) - Times(sx, sy)
    requires Times(n, beta) == sy - Times(alpha, sx)
    ensures sy - Times(alpha, sx) - Times(n, beta) == 0.0
    ensures sxy - Times(alpha, sxx) - Times(beta, sx) == 0.0
  {
    var e := sxy - Times(alpha, sxx) - Times(beta, sx);
    assert Times(n, e) == 0.0;
    assert Times(n, -e) == -Times(n, e);
    if e > 0.0 { Positive(n, e); }
    if e < 0.0 { Positive(n, -e); }
  }

  lemma RegularFitOptimal(h: seq<Sample>)
    requires Determinant(h) > 0.0 && |h| >= 2
    ensures Optimal(h, CoeffsOf(h).0, CoeffsOf(h).1)
  {
    hide SumX, SumY, SumXX, SumXY, Err0, Err1;
    var (alpha, beta) := CoeffsOf(h);
    var n := |h| as real;
    SolveNormal(n, SumX(h), SumY(h), SumXX(h), SumXY(h), alpha, beta);
    PlainErrSums(h, alpha, beta);
    WeightedErrSums(h, alpha, beta);
    NormalImpliesOptimal(h, alpha, beta);
  }

  lemma {:induction false} SameXErr(h: seq<Sample>, c: real, a: real, b: real)
    requires forall i :: 0 <= i < |h| ==> h[i].x == c
    ensures Err1(h, a, b) == Times(c, Err0(h, a, b))
  {
    if h != [] { SameXErr(h[..|h| - 1], c, a, b); }
  }

  /** With all x equal, a line is optimal exactly when its total error vanishes. */
  lemma FlatFitOptimalIff(h: seq<Sample>, a: real)
    requires h != [] && SameX(h)
    ensures Optimal(h, a, 0.0) <==> SumY(h) == Times(a, SumX(h))
  {
    PlainErrSums(h, a, 0.0);
    assert forall i :: 0 <= i < |h| ==> h[i].x == h[0].x;
    SameXErr(h, h[0].x, a, 0.0);
    if Optimal(h, a, 0.0) {
      OptimalImpliesCentred(h, a, 0.0);
    }
    if Err0(h, a, 0.0) == 0.0 {
      NormalImpliesOptimal(h, a, 0.0);
    }
  }

  /**
   Over the whole history the fitted pair has the least squared error of all lines, exactly when
   the data is empty, not all on one x, or has a positive x sum (so that the proportional
   fallback applies), or happens to balance the (1, 0) fallback.
   */
  lemma FitOptimalIff(h: seq<Sample>)
    ensures Optimal(h, CoeffsOf(h).0, CoeffsOf(h).1)
            <==> (h == [] || !SameX(h) || SumX(h) > 0.0 || SumY(h) == SumX(h))
  {
    DeterminantSign(h);
    if h == [] {
      assert forall c, d :: Sse(h, c, d) == 0.0;
    } else if !SameX(h) {
      RegularFitOptimal(h);
    } else {
      var a := CoeffsOf(h).0;
      FlatCoeffs(|h|, SumX(h), SumY(h), SumXX(h), SumXY(h));
      FlatFitOptimalIff(h, a);
    }
  }

  lemma FlatCoeffs(n: nat, sx: real, sy: real, sxx: real, sxy: real)
    requires Times(n as real, sxx) - Square(sx) <= 0.0
    ensures Coeffs(n, sx, sy, sxx, sxy).1 == 0.0
    ensures sy == Times(Coeffs(n, sx, sy, sxx, sxy).0, sx) <==> sx > 0.0 || sy == sx
  {
  }

  lemma {:induction false} ExactLine(h: seq<Sample>, a: real, b: real)
    requires forall i :: 0 <= i < |h| ==> h[i].y == Times(a, h[i].x) + b
    ensures Sse(h, a, b) == 0.0 && Err0(h, a, b) == 0.0 && Err1(h, a, b) == 0.0
  {
    if h != [] {
      ExactLine(h[..|h| - 1], a, b);
      assert Residual(h[|h| - 1], a, b) == 0.0;
    }
  }

  lemma OneLine(x: real, y: real, d: real, e: real)
    requires x != y && Times(d, x) + e == 0.0 && Times(d, y) + e == 0.0
    ensures d == 0.0 && e == 0.0
  {
    assert d * (x - y) == 0.0;
  }

  /** Samples on a line, with at least two different x, give that line back. */
  lemma LineRecovered(h: seq<Sample>, a: real, b: real)
    requires !SameX(h) && forall i :: 0 <= i < |h| ==> h[i].y == Times(a, h[i].x) + b
    ensures CoeffsOf(h) == (a, b)
  {
    hide Sse, Err0, Err1, Size, CoeffsOf, Times;
    FitOptimalIff(h);
    var (c, f) := CoeffsOf(h);
    ExactLine(h, a, b);
    var d, e := c - a, f - b;
    SseShift(h, a, b, d, e);
    assert Times(d, 0.0) == 0.0 && Times(e, 0.0) == 0.0 by { ZeroTimes(d); ZeroTimes(e); }
    assert Sse(h, a + d, b + e) <= Sse(h, a, b);
    SizeNonNegative(h, d, e);
    var i, j :| 0 <= i < j < |h| && h[i].x != h[j].x;
    OneLine(h[i].x, h[j].x, d, e);
  }

  lemma ZeroTimes(d: real)
    ensures Times(d, 0.0) == 0.0
  {
  }

  /** The running sums, updated in place one sample at a time. */
  class Fit {
    var n: nat
    var sx: real
    var sy: real
    var sxx: real
    var sxy: real
    ghost var history: seq<Sample>

    ghost predicate Valid()
      reads this
    {
      && n == |history| && sx == SumX(history) && sy == SumY(history)
      && sxx == SumXX(history) && sxy == SumXY(history)
    }

    constructor ()
      ensures Valid() && history == []
    {
      n, sx, sy, sxx, sxy := 0, 0.0, 0.0, 0.0, 0.0;
      history := [];
    }

    method Add(x: real, y: real)
      requires Valid()
      modifies this
      ensures Valid() && history == old(history) + [Sample(x, y)]
    {
      n := n + 1;
      sx := sx + x;
      sy := sy + y;
      sxx := sxx + x * x;
      sxy := sxy + x * y;
      history := history + [Sample(x, y)];
      assert history[..|history| - 1] == old(history);
    }

    /** The pair is a least-squares fit of everything added, whenever the data allows one. */
    method GetCoeffs() returns (alpha: real, beta: real)
      requires Valid()
      ensures (alpha, beta) == CoeffsOf(history)
      ensures Optimal(history, alpha, beta)
              <==> (history == [] || !SameX(history) || SumX(history) > 0.0 || SumY(history) == SumX(history))
    {
      FitOptimalIff(history);
      var den := Times(n as real, sxx) - Square(sx);
      if n < 2 || den <= 0.0 {
        if sx > 0.0 {
          alpha, beta := sy / sx, 0.0;
        } else {
          alpha, beta := 1.0, 0.0;
        }
      } else {
        alpha := (Times(n as real, sxy) - Times(sx, sy)) / den;
        beta := (sy - Times(alpha, sx)) / n as real;
      }
    }
  }
}
