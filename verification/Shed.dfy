/**
 The shed lever: a masked loop means a truncated loop.

 The pass compares the loop's canonical induction variable, coerced to 32 bits, with a
 budget read from the task's policy row. In a linear contraction the loaded value becomes
 zero past the budget; in an online softmax the score becomes minus infinity. Arithmetic
 is over the reals, and exp is any positive function with the additive law.
 */
module Shed {
  import opened Prelude

  const NO_CAP: nat := 0xFFFF_FFFF

  /** tau is the task's 16-bit budget; an unarmed header, an outside row or tau == 0 mean no cap. */
  function Budget(armed: bool, task: nat, maxTasks: nat, tau: nat): nat {
    if armed && task < maxTasks then (if tau == 0 then NO_CAP else tau) else NO_CAP
  }

  /** An induction variable of 32 bits or more, seen through 32 bits. */
  function Counter(i: nat): nat {
    i % U32
  }

  predicate Keep(i: nat, budget: nat) {
    Counter(i) < budget
  }

  // ------------------------------------------------------------------
  // Linear contraction.
  // ------------------------------------------------------------------

  function Contract(v: nat -> real, w: nat -> real, trips: nat): real {
    if trips == 0 then 0.0 else Contract(v, w, trips - 1) + v(trips - 1) * w(trips - 1)
  }

  /** Changing one weight changes the contraction by that term's value times the change, and nothing weighs nothing. */
  lemma {:induction false} ContractTerm(v: nat -> real, w: nat -> real, x: nat -> real, trips: nat, i: nat)
    requires i < trips && forall j: nat :: j < trips && j != i ==> w(j) == x(j)
    ensures Contract(v, x, trips) - Contract(v, w, trips) == v(i) * (x(i) - w(i))
    ensures (forall j: nat :: j < trips ==> w(j) == 0.0) ==> Contract(v, w, trips) == 0.0
  {
    if i < trips - 1 {
      ContractTerm(v, w, x, trips - 1, i);
    } else {
      SameContract(v, w, x, trips - 1);
    }
    if forall j: nat :: j < trips ==> w(j) == 0.0 { NoContract(v, w, trips); }
  }

  lemma {:induction false} SameContract(v: nat -> real, w: nat -> real, x: nat -> real, trips: nat)
    requires forall j: nat :: j < trips ==> w(j) == x(j)
    ensures Contract(v, w, trips) == Contract(v, x, trips)
  {
    if trips > 0 { SameContract(v, w, x, trips - 1); }
  }

  lemma {:induction false} NoContract(v: nat -> real, w: nat -> real, trips: nat)
    requires forall j: nat :: j < trips ==> w(j) == 0.0
    ensures Contract(v, w, trips) == 0.0
  {
    if trips > 0 { NoContract(v, w, trips - 1); }
  }

  function Masked(v: nat -> real, budget: nat): nat -> real {
    (i: nat) => if Keep(i, budget) then v(i) else 0.0
  }

  lemma {:induction false} MaskedIsPrefix(v: nat -> real, w: nat -> real, trips: nat, budget: nat)
    requires trips <= U32
    ensures Contract(Masked(v, budget), w, trips) == Contract(v, w, Min(budget, trips))
  {
    if trips > 0 {
      MaskedIsPrefix(v, w, trips - 1, budget);
      assert Counter(trips - 1) == trips - 1;
      if trips - 1 < budget {
        assert Masked(v, budget)(trips - 1) == v(trips - 1);
      } else {
        assert !Keep(trips - 1, budget);
        assert Masked(v, budget)(trips - 1) == 0.0;
      }
    }
  }

  function One(i: nat): real { 1.0 }

  /** A contraction of ones counts the terms a budget keeps. */
  function KeptTerms(budget: nat, trips: nat): nat {
    if trips == 0 then 0 else KeptTerms(budget, trips - 1) + if Keep(trips - 1, budget) then 1 else 0
  }

  lemma {:induction false} OnesCount(trips: nat, budget: nat)
    ensures Contract(One, One, trips) == trips as real
    ensures Contract(Masked(One, budget), One, trips) == KeptTerms(budget, trips) as real
  {
    if trips > 0 { OnesCount(trips - 1, budget); }
  }

  lemma {:induction false} KeptTermsBounds(budget: nat, a: nat, b: nat)
    requires a <= b
    ensures KeptTerms(budget, a) <= KeptTerms(budget, b) <= KeptTerms(budget, a) + (b - a)
  {
    if a < b { KeptTermsBounds(budget, a, b - 1); }
  }

  lemma {:induction false} KeptTermsExact(budget: nat, trips: nat)
    requires trips <= U32
    ensures KeptTerms(budget, trips) == Min(budget, trips)
  {
    if trips > 0 { KeptTermsExact(budget, trips - 1); }
  }

  /** Past 2^32 iterations the 32-bit counter restarts and a capped loop picks up dropped terms. */
  lemma CounterRestarts(tau: nat, trips: nat)
    requires 0 < tau < U16 && trips > U32
    ensures KeptTerms(tau, trips) > tau
  {
    KeptTermsExact(tau, U32);
    assert Keep(U32, tau);
    assert KeptTerms(tau, U32 + 1) == KeptTerms(tau, U32) + 1;
    KeptTermsBounds(tau, U32 + 1, trips);
  }

  /** The no-cap budget is all ones, so iteration 2^32 - 1 is dropped. */
  lemma AllOnesDropsOne(trips: nat)
    requires trips >= U32
    ensures KeptTerms(NO_CAP, trips) < trips
  {
    KeptTermsExact(NO_CAP, U32);
    KeptTermsBounds(NO_CAP, U32, trips);
  }

  ghost predicate Truncates(budget: nat, terms: nat, trips: nat) {
    forall v: nat -> real, w: nat -> real ::
      Contract(Masked(v, budget), w, trips) == Contract(v, w, terms)
  }

  /** With tau in 1..2^16-1 the masked loop is the loop of min(tau, trips) terms iff trips <= 2^32. */
  lemma CappedIsTruncationIff(task: nat, maxTasks: nat, tau: nat, trips: nat)
    requires task < maxTasks && 0 < tau < U16
    ensures Truncates(Budget(true, task, maxTasks, tau), Min(tau, trips), trips) <==> trips <= U32
  {
    if trips <= U32 {
      forall v: nat -> real, w: nat -> real
        ensures Contract(Masked(v, tau), w, trips) == Contract(v, w, Min(tau, trips))
      {
        MaskedIsPrefix(v, w, trips, tau);
      }
    } else {
      CounterRestarts(tau, trips);
      OnesCount(trips, tau);
      OnesCount(tau, tau);
      assert Contract(Masked(One, tau), One, trips) != Contract(One, One, tau);
    }
  }

  /**
   Without a cap, because the header is not armed, the task has no row, or its budget is 0, the masked
   loop is the original loop iff it runs fewer than 2^32 times.
   */
  lemma UncappedIsOriginalIff(armed: bool, task: nat, maxTasks: nat, tau: nat, trips: nat)
    requires !armed || task >= maxTasks || tau == 0
    ensures Truncates(Budget(armed, task, maxTasks, tau), trips, trips) <==> trips < U32
  {
    if trips < U32 {
      forall v: nat -> real, w: nat -> real
        ensures Contract(Masked(v, NO_CAP), w, trips) == Contract(v, w, trips)
      {
        MaskedIsPrefix(v, w, trips, NO_CAP);
      }
    } else {
      AllOnesDropsOne(trips);
      OnesCount(trips, NO_CAP);
      assert Contract(Masked(One, NO_CAP), One, trips) != Contract(One, One, trips);
    }
  }

  /** The woven contraction loop: the masked contraction, and up to 2^32 trips the truncated one. */
  method ContractLoop(v: nat -> real, w: nat -> real, trips: nat, budget: nat) returns (sum: real)
    ensures sum == Contract(Masked(v, budget), w, trips)
    ensures trips <= U32 ==> sum == Contract(v, w, Min(budget, trips))
  {
    sum := 0.0;
    for i := 0 to trips
      invariant sum == Contract(Masked(v, budget), w, i)
    {
      var value := if Keep(i, budget) then v(i) else 0.0;
      sum := sum + value * w(i);
    }
    if trips <= U32 {
      MaskedIsPrefix(v, w, trips, budget);
    }
  }

  // ------------------------------------------------------------------
  // Online softmax.
  // ------------------------------------------------------------------

  datatype Score = NegInf | Fin(r: real)

  datatype Token = Token(s: real, v: real)

  /** Running max, sum and accumulator; NaN once an undefined difference has been taken. */
  datatype Fold = Fold(m: Score, l: real, acc: real) | NaN

  predicate AddLaw(e: real -> real, a: real, b: real) {
    e(a + b) == e(a) * e(b)
  }

  predicate Positive(e: real -> real, a: real) {
    e(a) > 0.0
  }

  ghost predicate ExpLike(e: real -> real) {
    && e(0.0) == 1.0
    && (forall a, b :: AddLaw(e, a, b))
    && forall a :: Positive(e, a)
  }

  function Max(a: Score, b: Score): Score {
    if a.NegInf? then b else if b.NegInf? then a else if a.r < b.r then b else a
  }

  /** exp(a - b); the difference of two infinities is not a number. */
  function ExpDiff(e: real -> real, a: Score, b: Score): Option<real> {
    if b.NegInf? then None else if a.NegInf? then Some(0.0) else Some(e(a.r - b.r))
  }

  /** One iteration of the kernel body on score s and value v. */
  function Update(e: real -> real, f: Fold, s: Score, v: real): Fold {
    if f.NaN? then NaN
    else
      var mn := Max(f.m, s);
      var c := ExpDiff(e, f.m, mn);
      var w := ExpDiff(e, s, mn);
      if c.None? || w.None? then NaN
      else Fold(mn, f.l * c.value + w.value, f.acc * c.value + w.value * v)
  }

  /** One iteration, as a function of the state before it. */
  type Body<!F> = (F, Score, real) -> F

  function Softmax(e: real -> real): Body<Fold> {
    (f: Fold, s: Score, v: real) => Update(e, f, s, v)
  }

  function Run<F>(u: Body<F>, f: F, ts: seq<Token>): F {
    if ts == [] then f
    else
      var n := |ts| - 1;
      u(Run(u, f, ts[..n]), Fin(ts[n].s), ts[n].v)
  }

  function MaskScore(i: nat, budget: nat, s: real): Score {
    if Keep(i, budget) then Fin(s) else NegInf
  }

  /** The inner loop over one page, with the score masked. */
  function MaskedPage<F>(u: Body<F>, f: F, page: seq<Token>, budget: nat): F {
    if page == [] then f
    else
      var n := |page| - 1;
      u(MaskedPage(u, f, page[..n], budget), MaskScore(n, budget, page[n].s), page[n].v)
  }

  function MaskedPages<F>(u: Body<F>, f: F, pages: seq<seq<Token>>, budget: nat): F {
    if pages == [] then f
    else
      var n := |pages| - 1;
      MaskedPage(u, MaskedPages(u, f, pages[..n], budget), pages[n], budget)
  }

  /** The tokens a budget keeps: a prefix of each page, since the inner counter restarts. */
  function Kept(pages: seq<seq<Token>>, budget: nat): seq<Token> {
    if pages == [] then []
    else
      var n := |pages| - 1;
      Kept(pages[..n], budget) + pages[n][..Min(budget, |pages[n]|)]
  }

  lemma {:induction false} RunAppend<F>(u: Body<F>, f: F, a: seq<Token>, b: seq<Token>)
    ensures Run(u, f, a + b) == Run(u, Run(u, f, a), b)
  {
    if b == [] {
      assert a + b == a;
    } else {
      var n := |b| - 1;
      RunAppend(u, f, a, b[..n]);
      assert (a + b)[..|a + b| - 1] == a + b[..n];
    }
  }

  /** A kept token starts the fold, and once started a masked token leaves it as it was. */
  ghost predicate MaskNeutral<F(!new)>(u: Body<F>, ok: F -> bool, started: F -> bool) {
    && (forall f, s, v :: ok(f) ==> started(u(f, Fin(s), v)))
    && (forall f :: started(f) ==> ok(f))
    && (forall f, v :: started(f) ==> u(f, NegInf, v) == f)
  }

  lemma {:induction false} RunStarts<F(!new)>(u: Body<F>, ok: F -> bool, started: F -> bool, f: F, ts: seq<Token>)
    requires MaskNeutral(u, ok, started) && ok(f)
    ensures ok(Run(u, f, ts)) && (ts != [] ==> started(Run(u, f, ts)))
  {
    if ts != [] { RunStarts(u, ok, started, f, ts[..|ts| - 1]); }
  }

  lemma PrefixSlices<T>(page: seq<T>, budget: nat)
    requires page != []
    ensures var n := |page| - 1;
            var short := page[..n][..Min(budget, n)];
            if n < budget then page[..Min(budget, |page|)] == page && short == page[..n]
            else page[..Min(budget, |page|)] == short && |short| == budget
  {
  }

  lemma {:induction false} MaskedPageIsPrefix<F(!new)>(u: Body<F>, ok: F -> bool, started: F -> bool, f: F,
                                                       page: seq<Token>, budget: nat)
    requires MaskNeutral(u, ok, started) && ok(f) && 0 < budget && |page| <= U32
    ensures MaskedPage(u, f, page, budget) == Run(u, f, page[..Min(budget, |page|)])
  {
    if page != [] {
      var n := |page| - 1;
      PrefixSlices(page, budget);
      MaskedPageIsPrefix(u, ok, started, f, page[..n], budget);
      RunStarts(u, ok, started, f, page[..n][..Min(budget, n)]);
    }
  }

  /**
   Masking the score past the budget reaches exactly the state of the fold over the kept
   tokens only, across any number of pages and from any defined starting state.
   */
  lemma {:induction false} MaskedIsTruncated<F(!new)>(u: Body<F>, ok: F -> bool, started: F -> bool, f: F,
                                                      pages: seq<seq<Token>>, budget: nat)
    requires MaskNeutral(u, ok, started) && ok(f) && 0 < budget
    requires forall p :: 0 <= p < |pages| ==> |pages[p]| <= U32
    ensures MaskedPages(u, f, pages, budget) == Run(u, f, Kept(pages, budget))
  {
    if pages != [] {
      var n := |pages| - 1;
      MaskedIsTruncated(u, ok, started, f, pages[..n], budget);
      var before := Kept(pages[..n], budget);
      RunStarts(u, ok, started, f, before);
      MaskedPageIsPrefix(u, ok, started, Run(u, f, before), pages[n], budget);
      RunAppend(u, f, before, pages[n][..Min(budget, |pages[n]|)]);
    }
  }

  predicate Defined(f: Fold) { f.Fold? }

  predicate Started(f: Fold) { f.Fold? && f.m.Fin? }

  /** A score of minus infinity is neutral for the online softmax update. */
  lemma SoftmaxMaskNeutral(e: real -> real)
    requires ExpLike(e)
    ensures MaskNeutral(Softmax(e), Defined, Started)
  {
  }

  /** The shed kernel and the truncated kernel end in the same running max, sum and accumulator. */
  lemma ShedIsTruncatedSoftmax(e: real -> real, f: Fold, pages: seq<seq<Token>>, budget: nat)
    requires ExpLike(e) && f.Fold? && 0 < budget
    requires forall p :: 0 <= p < |pages| ==> |pages[p]| <= U32
    ensures MaskedPages(Softmax(e), f, pages, budget) == Run(Softmax(e), f, Kept(pages, budget))
    ensures Run(Softmax(e), f, Kept(pages, budget)).Fold?
  {
    SoftmaxMaskNeutral(e);
    MaskedIsTruncated(Softmax(e), Defined, Started, f, pages, budget);
    RunStarts(Softmax(e), Defined, Started, f, Kept(pages, budget));
  }

  // ------------------------------------------------------------------
  // The closed form.
  // ------------------------------------------------------------------

  function Weights(e: real -> real, ts: seq<Token>): real {
    if ts == [] then 0.0 else Weights(e, ts[..|ts| - 1]) + e(ts[|ts| - 1].s)
  }

  function Weighted(e: real -> real, ts: seq<Token>): real {
    if ts == [] then 0.0 else Weighted(e, ts[..|ts| - 1]) + e(ts[|ts| - 1].s) * ts[|ts| - 1].v
  }

  /** The softmax average of the values, in the textbook form. */
  function SoftmaxAverage(e: real -> real, ts: seq<Token>): real
    requires Weights(e, ts) != 0.0
  {
    Weighted(e, ts) / Weights(e, ts)
  }

  lemma {:induction false} WeightsPositive(e: real -> real, ts: seq<Token>)
    requires ExpLike(e)
    ensures Weights(e, ts) >= 0.0 && (ts != [] ==> Weights(e, ts) > 0.0)
  {
    if ts != [] {
      WeightsPositive(e, ts[..|ts| - 1]);
      assert Positive(e, ts[|ts| - 1].s);
    }
  }

  lemma Rescale(e: real -> real, a: real, b: real, x: real)
    requires ExpLike(e)
    ensures x * e(a - b) * e(b) == x * e(a)
  {
    assert AddLaw(e, a - b, b);
    assert (a - b) + b == a;
    Associate(x, e(a - b), e(b));
  }

  /** A start of the fold: nothing summed yet, and any running max (-inf, or a very low number). */
  predicate Fresh(f: Fold) {
    f.Fold? && f.l == 0.0 && f.acc == 0.0
  }

  lemma Associate(a: real, b: real, c: real)
    ensures (a * b) * c == a * (b * c) && (a * b) * c == (a * c) * b
  {
  }

  lemma Distribute(a: real, b: real, c: real)
    ensures (a + b) * c == a * c + b * c
  {
  }

  /** The fold scaled by exp of its running max is the plain sum over the tokens folded. */
  predicate Scaled(e: real -> real, f: Fold, den: real, num: real) {
    && f.Fold?
    && (f.m.Fin? ==> f.l * e(f.m.r) == den && f.acc * e(f.m.r) == num)
    && (f.m.NegInf? ==> f.l == f.acc == den == num == 0.0)
  }

  lemma ScaledFirst(e: real -> real, s: real, v: real)
    requires ExpLike(e)
    ensures Scaled(e, Update(e, Fold(NegInf, 0.0, 0.0), Fin(s), v), e(s), e(s) * v)
  {
    assert s - s == 0.0;
    var g := Update(e, Fold(NegInf, 0.0, 0.0), Fin(s), v);
    assert g == Fold(Fin(s), 1.0, v);
  }

  lemma ScaledNext(e: real -> real, m: real, l: real, acc: real, s: real, v: real)
    requires ExpLike(e)
    ensures Scaled(e, Update(e, Fold(Fin(m), l, acc), Fin(s), v), l * e(m) + e(s), acc * e(m) + e(s) * v)
  {
    var b := if m < s then s else m;
    var c, w := e(m - b), e(s - b);
    var g := Update(e, Fold(Fin(m), l, acc), Fin(s), v);
    assert g == Fold(Fin(b), l * c + w, acc * c + w * v);
    Rescale(e, m, b, l);
    Rescale(e, m, b, acc);
    Rescale(e, s, b, 1.0);
    Distribute(l * c, w, e(b));
    Distribute(acc * c, w * v, e(b));
    Associate(w, v, e(b));
  }

  lemma UpdateScaled(e: real -> real, f: Fold, den: real, num: real, s: real, v: real)
    requires ExpLike(e) && Scaled(e, f, den, num)
    ensures Scaled(e, Update(e, f, Fin(s), v), den + e(s), num + e(s) * v)
  {
    if f.m.NegInf? {
      ScaledFirst(e, s, v);
    } else {
      ScaledNext(e, f.m.r, f.l, f.acc, s, v);
    }
  }

  /** The state after folding ts carries the plain sums over ts. */
  predicate Carries(e: real -> real, f: Fold, ts: seq<Token>) {
    Scaled(e, f, Weights(e, ts), Weighted(e, ts))
  }

  lemma SumsLast(e: real -> real, ts: seq<Token>, t: Token)
    ensures Weights(e, ts + [t]) == Weights(e, ts) + e(t.s)
    ensures Weighted(e, ts + [t]) == Weighted(e, ts) + e(t.s) * t.v
  {
    assert (ts + [t])[..|ts|] == ts;
  }

  lemma CarriesStep(e: real -> real, f: Fold, ts: seq<Token>, t: Token)
    requires ExpLike(e) && Carries(e, f, ts)
    ensures Carries(e, Softmax(e)(f, Fin(t.s), t.v), ts + [t])
  {
    SumsLast(e, ts, t);
    UpdateScaled(e, f, Weights(e, ts), Weighted(e, ts), t.s, t.v);
  }

  /** Whatever one iteration carries forward, the whole fold carries. */
  lemma {:induction false} RunCarries<F(!new)>(u: Body<F>, r: (F, seq<Token>) -> bool, f: F, ts: seq<Token>)
    requires r(f, [])
    requires forall g, us, t: Token :: r(g, us) ==> r(u(g, Fin(t.s), t.v), us + [t])
    ensures r(Run(u, f, ts), ts)
  {
    if ts != [] {
      var n := |ts| - 1;
      RunCarries(u, r, f, ts[..n]);
      assert ts[..n] + [ts[n]] == ts;
    }
  }

  lemma RunScaled(e: real -> real, f: Fold, ts: seq<Token>)
    requires ExpLike(e) && Fresh(f)
    ensures Carries(e, Run(Softmax(e), f, ts), ts)
  {
    var r := (g: Fold, us: seq<Token>) => Carries(e, g, us);
    forall g, us, t: Token | r(g, us) ensures r(Softmax(e)(g, Fin(t.s), t.v), us + [t]) {
      CarriesStep(e, g, us, t);
    }
    RunCarries(Softmax(e), r, f, ts);
  }

  lemma Cancel(a: real, b: real, k: real)
    requires k != 0.0 && a * k == b * k
    ensures a == b
  {
  }

  lemma DivideOut(l: real, acc: real, k: real, den: real, num: real)
    requires k != 0.0 && l * k == den && acc * k == num && den != 0.0
    ensures l != 0.0 && acc / l == num / den
  {
    assert l != 0.0;
    var q := acc / l;
    assert q * l == acc;
    Associate(q, l, k);
    assert q * den == num;
    assert (num / den) * den == num;
    Cancel(q, num / den, den);
  }

  lemma RunFacts(e: real -> real, f: Fold, ts: seq<Token>)
    requires ExpLike(e) && Fresh(f) && ts != []
    ensures Weights(e, ts) > 0.0 && Run(Softmax(e), f, ts).Fold? && Run(Softmax(e), f, ts).m.Fin?
    ensures Scaled(e, Run(Softmax(e), f, ts), Weights(e, ts), Weighted(e, ts))
    ensures Positive(e, Run(Softmax(e), f, ts).m.r)
  {
    WeightsPositive(e, ts);
    RunScaled(e, f, ts);
    SoftmaxMaskNeutral(e);
    RunStarts(Softmax(e), Defined, Started, f, ts);
  }

  lemma ScaledQuotient(e: real -> real, f: Fold, den: real, num: real)
    requires Scaled(e, f, den, num) && f.m.Fin? && Positive(e, f.m.r) && den != 0.0
    ensures f.l != 0.0 && f.acc / f.l == num / den
  {
    DivideOut(f.l, f.acc, e(f.m.r), den, num);
  }

  /** acc / l is the softmax average of the tokens folded. */
  lemma RunIsSoftmax(e: real -> real, f: Fold, ts: seq<Token>)
    requires ExpLike(e) && Fresh(f) && ts != []
    ensures Weights(e, ts) > 0.0 && Run(Softmax(e), f, ts).Fold? && Run(Softmax(e), f, ts).l != 0.0
    ensures Run(Softmax(e), f, ts).acc / Run(Softmax(e), f, ts).l == SoftmaxAverage(e, ts)
  {
    RunFacts(e, f, ts);
    ScaledQuotient(e, Run(Softmax(e), f, ts), Weights(e, ts), Weighted(e, ts));
  }

  /** All tokens of all pages, page after page. */
  function Tokens(pages: seq<seq<Token>>): seq<Token> {
    if pages == [] then [] else Tokens(pages[..|pages| - 1]) + pages[|pages| - 1]
  }

  lemma {:induction false} KeptAll(pages: seq<seq<Token>>)
    requires forall p :: 0 <= p < |pages| ==> |pages[p]| < U32
    ensures Kept(pages, NO_CAP) == Tokens(pages)
  {
    if pages != [] {
      var n := |pages| - 1;
      KeptAll(pages[..n]);
      assert pages[n][..Min(NO_CAP, |pages[n]|)] == pages[n];
    }
  }

  /** Without a cap the masked kernel is the unmasked one, token for token. */
  lemma UncappedSoftmaxIsOriginal(e: real -> real, f: Fold, pages: seq<seq<Token>>)
    requires ExpLike(e) && f.Fold?
    requires forall p :: 0 <= p < |pages| ==> |pages[p]| < U32
    ensures MaskedPages(Softmax(e), f, pages, NO_CAP) == Run(Softmax(e), f, Tokens(pages))
  {
    ShedIsTruncatedSoftmax(e, f, pages, NO_CAP);
    KeptAll(pages);
  }

  /** The softmax average of these tokens, and nothing (0 / 0) when there are none. */
  ghost predicate Averages(e: real -> real, ts: seq<Token>, out: Option<real>) {
    if ts == [] then out == None else Weights(e, ts) != 0.0 && out == Some(SoftmaxAverage(e, ts))
  }

  /**
   The woven attention kernel: nested loops over pages and tokens with the score masked. An armed task
   with a row and a budget averages the first tau tokens of each page; any other averages all tokens
   (of a page of 2^32 tokens, all but the last).
   */
  method Attention(e: real -> real, m0: real, pages: seq<seq<Token>>, armed: bool, task: nat, maxTasks: nat, tau: nat)
    returns (out: Option<real>)
    requires ExpLike(e)
    requires forall p :: 0 <= p < |pages| ==> |pages[p]| <= U32
    ensures armed && task < maxTasks && tau > 0 ==> Averages(e, Kept(pages, tau), out)
    ensures !armed || task >= maxTasks || tau == 0 ==> Averages(e, Kept(pages, U32 - 1), out)
    ensures !armed || task >= maxTasks || tau == 0 ==>
              (forall p :: 0 <= p < |pages| ==> |pages[p]| < U32) ==> Averages(e, Tokens(pages), out)
  {
    var budget := Budget(armed, task, maxTasks, tau);
    ghost var start := Fold(Fin(m0), 0.0, 0.0);
    var f := Fold(Fin(m0), 0.0, 0.0);
    for b := 0 to |pages|
      invariant f == MaskedPages(Softmax(e), start, pages[..b], budget)
    {
      ghost var before := f;
      var page := pages[b];
      for t := 0 to |page|
        invariant f == MaskedPage(Softmax(e), before, page[..t], budget)
      {
        assert page[..t + 1][..t] == page[..t];
        f := Update(e, f, MaskScore(t, budget, page[t].s), page[t].v);
      }
      assert page[..|page|] == page;
      assert pages[..b + 1][..b] == pages[..b];
    }
    assert pages[..|pages|] == pages;
    ShedIsTruncatedSoftmax(e, start, pages, budget);
    if Kept(pages, budget) != [] { RunIsSoftmax(e, start, Kept(pages, budget)); }
    out := if f.l == 0.0 then None else Some(f.acc / f.l);
    if budget == NO_CAP && forall p :: 0 <= p < |pages| ==> |pages[p]| < U32 { KeptAll(pages); }
  }
}
