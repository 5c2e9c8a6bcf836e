/**
 The address searches of the pass over a def-use graph, which may be cyclic: does an address
 depend on a loaded index, does it reach a read of the slot coordinate?
 */
module AddressForms {
  import opened Prelude

  /** What a value is, as far as the searches tell values apart; Opaque is everything else. */
  datatype Kind = Load | Gep | Phi | Arith | Unary | SlotRead | Opaque

  datatype Node = Node(kind: Kind, operands: seq<nat>)

  type Graph = seq<Node>

  predicate Closed(g: Graph) {
    forall v, k :: 0 <= v < |g| && 0 <= k < |g[v].operands| ==> g[v].operands[k] < |g|
  }

  datatype Query = LoadedIndex | SlotCoordinate

  predicate Target(q: Query, k: Kind) {
    k == if q == LoadedIndex then Load else SlotRead
  }

  /** The values a search looks through. Unary operators are only looked through for loads. */
  predicate Transparent(q: Query, k: Kind) {
    k == Gep || k == Phi || k == Arith || (k == Unary && q == LoadedIndex)
  }

  /** A walk along operands, through transparent values only. */
  ghost predicate Walk(g: Graph, q: Query, p: seq<nat>) {
    && p != [] && (forall i :: 0 <= i < |p| ==> p[i] < |g|)
    && forall i :: 0 <= i < |p| - 1 ==> Transparent(q, g[p[i]].kind) && p[i + 1] in g[p[i]].operands
  }

  ghost predicate Leads(g: Graph, q: Query, v: nat, w: nat) {
    exists p :: Walk(g, q, p) && p[0] == v && p[|p| - 1] == w
  }

  ghost predicate Reaches(g: Graph, q: Query, v: nat) {
    exists w: nat :: w < |g| && Leads(g, q, v, w) && Target(q, g[w].kind)
  }

  const STEP_LIMIT: nat := 256

  datatype Verdict = Found | Drained | GaveUp

  /** Depth first, last operand first, until a target, an empty list or too many steps. */
  function Explore(g: Graph, q: Query, work: seq<nat>, seen: set<nat>, steps: nat): Verdict
    requires Closed(g) && forall k :: 0 <= k < |work| ==> work[k] < |g|
    decreases STEP_LIMIT - steps
  {
    if work == [] then Drained
    else if steps >= STEP_LIMIT then GaveUp
    else
      var cur := work[|work| - 1];
      var rest := work[..|work| - 1];
      if cur in seen then Explore(g, q, rest, seen, steps + 1)
      else if Target(q, g[cur].kind) then Found
      else if Transparent(q, g[cur].kind) then Explore(g, q, rest + g[cur].operands, seen + {cur}, steps + 1)
      else Explore(g, q, rest, seen + {cur}, steps + 1)
  }

  /** The search as the pass runs it. */
  method Search(g: Graph, q: Query, root: nat) returns (found: bool)
    requires Closed(g) && root < |g|
    ensures found <==> Explore(g, q, [root], {}, 0) == Found
    ensures found ==> Reaches(g, q, root)
    ensures !found && Narrow(g, q, root) ==> !Reaches(g, q, root)
  {
    hide Reaches, Narrow, Explore;
    var work: seq<nat> := [root];
    var seen: set<nat> := {};
    var steps := 0;
    SearchExact(g, q, root);
    while work != [] && steps < STEP_LIMIT
      invariant forall k :: 0 <= k < |work| ==> work[k] < |g|
      invariant steps <= STEP_LIMIT
      invariant Explore(g, q, work, seen, steps) == Explore(g, q, [root], {}, 0)
      decreases STEP_LIMIT - steps
    {
      ExploreUnfolds(g, q, work, seen, steps);
      steps := steps + 1;
      var cur := work[|work| - 1];
      work := work[..|work| - 1];
      if cur in seen {
        continue;
      }
      seen := seen + {cur};
      if Target(q, g[cur].kind) {
        return true;
      }
      if Transparent(q, g[cur].kind) {
        work := work + g[cur].operands;
      }
    }
    ExploreEnds(g, q, work, seen, steps);
    return false;
  }

  lemma ExploreUnfolds(g: Graph, q: Query, work: seq<nat>, seen: set<nat>, steps: nat)
    requires Closed(g) && (forall k :: 0 <= k < |work| ==> work[k] < |g|) && work != [] && steps < STEP_LIMIT
    ensures var cur, rest := work[|work| - 1], work[..|work| - 1];
            Explore(g, q, work, seen, steps)
            == if cur in seen then Explore(g, q, rest, seen, steps + 1)
               else if Target(q, g[cur].kind) then Found
               else if Transparent(q, g[cur].kind) then Explore(g, q, rest + g[cur].operands, seen + {cur}, steps + 1)
               else Explore(g, q, rest, seen + {cur}, steps + 1)
  {
  }

  lemma ExploreEnds(g: Graph, q: Query, work: seq<nat>, seen: set<nat>, steps: nat)
    requires Closed(g) && (forall k :: 0 <= k < |work| ==> work[k] < |g|) && (work == [] || steps >= STEP_LIMIT)
    ensures Explore(g, q, work, seen, steps) != Found
  {
  }

  // ------------------------------------------------------------------
  // A hit is a walk.
  // ------------------------------------------------------------------

  lemma WalkExtends(g: Graph, q: Query, v: nat, w: nat, x: nat)
    requires Closed(g) && w < |g| && Leads(g, q, v, w) && Transparent(q, g[w].kind) && x in g[w].operands
    ensures Leads(g, q, v, x)
  {
    var p :| Walk(g, q, p) && p[0] == v && p[|p| - 1] == w;
    assert Walk(g, q, p + [x]);
  }

  lemma {:induction false} FoundIsWalk(g: Graph, q: Query, work: seq<nat>, seen: set<nat>, steps: nat, root: nat)
    requires Closed(g) && forall k :: 0 <= k < |work| ==> work[k] < |g| && Leads(g, q, root, work[k])
    ensures Explore(g, q, work, seen, steps) == Found ==> Reaches(g, q, root)
    decreases STEP_LIMIT - steps
  {
    if work != [] && steps < STEP_LIMIT {
      var cur := work[|work| - 1];
      var rest := work[..|work| - 1];
      if cur in seen {
        FoundIsWalk(g, q, rest, seen, steps + 1, root);
      } else if Transparent(q, g[cur].kind) {
        forall k | 0 <= k < |g[cur].operands| ensures Leads(g, q, root, g[cur].operands[k]) {
          WalkExtends(g, q, root, cur, g[cur].operands[k]);
        }
        FoundIsWalk(g, q, rest + g[cur].operands, seen + {cur}, steps + 1, root);
      } else {
        FoundIsWalk(g, q, rest, seen + {cur}, steps + 1, root);
      }
    }
  }

  // ------------------------------------------------------------------
  // A drained list is exhaustive.
  // ------------------------------------------------------------------

  /** Seen values are no targets, and what they lead to is seen or still to do. */
  ghost predicate Exhausting(g: Graph, q: Query, work: seq<nat>, seen: set<nat>) {
    forall v :: v in seen ==>
      && v < |g| && !Target(q, g[v].kind)
      && (Transparent(q, g[v].kind) ==> forall x :: x in g[v].operands ==> x in seen || x in work)
  }

  lemma {:induction false} StaysInside(g: Graph, q: Query, seen: set<nat>, p: seq<nat>, i: nat)
    requires Exhausting(g, q, [], seen) && Walk(g, q, p) && p[0] in seen && i < |p|
    ensures p[i] in seen
  {
    if i > 0 { StaysInside(g, q, seen, p, i - 1); }
  }

  lemma {:induction false} DrainedIsExhaustive(g: Graph, q: Query, work: seq<nat>, seen: set<nat>, steps: nat,
                                               root: nat)
    requires Closed(g) && forall k :: 0 <= k < |work| ==> work[k] < |g|
    requires Exhausting(g, q, work, seen) && (root in seen || root in work)
    ensures Explore(g, q, work, seen, steps) == Drained ==> !Reaches(g, q, root)
    decreases STEP_LIMIT - steps
  {
    if work == [] {
      forall p | Walk(g, q, p) && p[0] == root ensures p[|p| - 1] in seen {
        StaysInside(g, q, seen, p, |p| - 1);
      }
    } else if steps < STEP_LIMIT {
      var cur := work[|work| - 1];
      var rest := work[..|work| - 1];
      assert work == rest + [cur];
      if cur in seen {
        DrainedIsExhaustive(g, q, rest, seen, steps + 1, root);
      } else if Target(q, g[cur].kind) {
      } else if Transparent(q, g[cur].kind) {
        DrainedIsExhaustive(g, q, rest + g[cur].operands, seen + {cur}, steps + 1, root);
      } else {
        DrainedIsExhaustive(g, q, rest, seen + {cur}, steps + 1, root);
      }
    }
  }

  // ------------------------------------------------------------------
  // When the step limit is out of reach.
  // ------------------------------------------------------------------

  /** A set of values that holds the root and whatever the search looks through its members at. */
  ghost predicate Cone(g: Graph, q: Query, c: set<nat>, root: nat) {
    && root in c
    && forall v :: v in c ==>
         v < |g| && (Transparent(q, g[v].kind) ==> forall x :: x in g[v].operands ==> x in c)
  }

  /** The operands of the transparent values of c that have not been seen, value by value. */
  function Ahead(g: Graph, q: Query, c: set<nat>, seen: set<nat>): (out: seq<nat>)
    ensures |out| == |g|
    ensures forall v :: 0 <= v < |g| ==>
              out[v] == if v in c && v !in seen && Transparent(q, g[v].kind) then |g[v].operands| else 0
  {
    seq(|g|, v requires 0 <= v < |g| =>
      if v in c && v !in seen && Transparent(q, g[v].kind) then |g[v].operands| else 0)
  }

  /** The cone of the root, however large the function around it, has fewer operands than the step limit. */
  ghost predicate Narrow(g: Graph, q: Query, root: nat) {
    exists c: set<nat> :: Cone(g, q, c, root) && Sum(Ahead(g, q, c, {})) < STEP_LIMIT
  }

  lemma AheadStep(g: Graph, q: Query, c: set<nat>, seen: set<nat>, v: nat)
    requires v < |g| && v in c && v !in seen
    ensures Sum(Ahead(g, q, c, seen + {v})) + (if Transparent(q, g[v].kind) then |g[v].operands| else 0)
            == Sum(Ahead(g, q, c, seen))
  {
    SumUpdate(Ahead(g, q, c, seen), v, 0);
    assert Ahead(g, q, c, seen + {v}) == Ahead(g, q, c, seen)[v := 0];
  }

  ghost predicate Within(g: Graph, c: set<nat>, work: seq<nat>) {
    forall k :: 0 <= k < |work| ==> work[k] < |g| && work[k] in c
  }

  /** The list and the seen set after one more value that is no target. */
  function Next(g: Graph, q: Query, work: seq<nat>, seen: set<nat>): (seq<nat>, set<nat>)
    requires work != [] && work[|work| - 1] < |g|
  {
    var cur, rest := work[|work| - 1], work[..|work| - 1];
    if cur in seen then (rest, seen)
    else (if Transparent(q, g[cur].kind) then rest + g[cur].operands else rest, seen + {cur})
  }

  lemma ExploreNext(g: Graph, q: Query, work: seq<nat>, seen: set<nat>, steps: nat)
    requires Closed(g) && (forall k :: 0 <= k < |work| ==> work[k] < |g|) && work != [] && steps < STEP_LIMIT
    ensures var (w, t) := Next(g, q, work, seen);
            && (forall k :: 0 <= k < |w| ==> w[k] < |g|)
            && (Explore(g, q, work, seen, steps) == Found
                || Explore(g, q, work, seen, steps) == Explore(g, q, w, t, steps + 1))
  {
  }

  /** Each step uses up exactly one of the list's values and the operands still ahead. */
  lemma BudgetNext(g: Graph, q: Query, c: set<nat>, root: nat, work: seq<nat>, seen: set<nat>)
    requires Closed(g) && Cone(g, q, c, root) && Within(g, c, work) && work != []
    ensures var (w, t) := Next(g, q, work, seen);
            Within(g, c, w) && |w| + Sum(Ahead(g, q, c, t)) + 1 == |work| + Sum(Ahead(g, q, c, seen))
  {
    hide Ahead, Sum, Cone;
    var cur := work[|work| - 1];
    ConeOperands(g, q, c, root, cur);
    if cur !in seen { AheadStep(g, q, c, seen, cur); }
    hide Transparent, Closed;
  }

  lemma ConeOperands(g: Graph, q: Query, c: set<nat>, root: nat, v: nat)
    requires Closed(g) && Cone(g, q, c, root) && v in c
    ensures v < |g| && (Transparent(q, g[v].kind) ==> Within(g, c, g[v].operands))
  {
    if Transparent(q, g[v].kind) {
      assert forall k :: 0 <= k < |g[v].operands| ==> g[v].operands[k] in c;
    }
  }

  lemma {:induction false} EnoughSteps(g: Graph, q: Query, c: set<nat>, root: nat, work: seq<nat>, seen: set<nat>,
                                       steps: nat)
    requires Closed(g) && Cone(g, q, c, root) && Within(g, c, work)
    requires steps + |work| + Sum(Ahead(g, q, c, seen)) <= STEP_LIMIT
    ensures Explore(g, q, work, seen, steps) != GaveUp
    decreases STEP_LIMIT - steps
  {
    if work != [] && steps < STEP_LIMIT {
      ExploreNext(g, q, work, seen, steps);
      BudgetNext(g, q, c, root, work, seen);
      hide Ahead, Sum, Cone, Closed, Explore;
      var (w, t) := Next(g, q, work, seen);
      hide Next;
      EnoughSteps(g, q, c, root, w, t, steps + 1);
    }
  }

  /** A drained search has seen a cone of the root, and paid one step for each operand in it. */
  lemma {:induction false} DrainedCone(g: Graph, q: Query, root: nat, work: seq<nat>, seen: set<nat>, steps: nat)
    returns (c: set<nat>)
    requires Closed(g) && (forall k :: 0 <= k < |work| ==> work[k] < |g|) && steps <= STEP_LIMIT
    requires Explore(g, q, work, seen, steps) == Drained
    requires Exhausting(g, q, work, seen) && (root in seen || root in work)
    ensures Cone(g, q, c, root) && Within(g, c, work) && seen <= c
    ensures steps + |work| + Sum(Ahead(g, q, c, seen)) <= STEP_LIMIT
    decreases STEP_LIMIT - steps
  {
    hide Explore, Sum, Ahead;
    if work == [] {
      c := seen;
      SeenIsCone(g, q, root, seen);
    } else {
      var (w, t) := Next(g, q, work, seen);
      ExhaustingNext(g, q, root, work, seen, steps);
      hide Exhausting, Cone, Next;
      c := DrainedCone(g, q, root, w, t, steps + 1);
      NextInside(g, q, c, work, seen);
      BudgetNext(g, q, c, root, work, seen);
    }
  }

  lemma SeenIsCone(g: Graph, q: Query, root: nat, seen: set<nat>)
    requires Exhausting(g, q, [], seen) && root in seen
    ensures Cone(g, q, seen, root) && Sum(Ahead(g, q, seen, seen)) == 0
  {
    SumZero(Ahead(g, q, seen, seen));
  }

  lemma NextInside(g: Graph, q: Query, c: set<nat>, work: seq<nat>, seen: set<nat>)
    requires work != [] && (forall k :: 0 <= k < |work| ==> work[k] < |g|)
    requires Within(g, c, Next(g, q, work, seen).0) && Next(g, q, work, seen).1 <= c
    ensures Within(g, c, work) && seen <= c
  {
    var (w, t) := Next(g, q, work, seen);
    assert forall k :: 0 <= k < |work| - 1 ==> w[k] == work[k];
    assert work[|work| - 1] in t;
  }

  lemma ExhaustingNext(g: Graph, q: Query, root: nat, work: seq<nat>, seen: set<nat>, steps: nat)
    requires Closed(g) && (forall k :: 0 <= k < |work| ==> work[k] < |g|) && work != [] && steps <= STEP_LIMIT
    requires Explore(g, q, work, seen, steps) == Drained
    requires Exhausting(g, q, work, seen) && (root in seen || root in work)
    ensures steps < STEP_LIMIT
    ensures var (w, t) := Next(g, q, work, seen);
            && (forall k :: 0 <= k < |w| ==> w[k] < |g|)
            && Exhausting(g, q, w, t) && (root in t || root in w)
            && Explore(g, q, w, t, steps + 1) == Drained
  {
    assert work == work[..|work| - 1] + [work[|work| - 1]];
  }

  /**
   A yes always has a walk to a target behind it. The search runs dry, its only sound no, exactly when
   there is no target and the root's own cone has fewer operands than the step limit; and it gives up
   only when the cone has more.
   */
  lemma SearchExact(g: Graph, q: Query, root: nat)
    requires Closed(g) && root < |g|
    ensures Explore(g, q, [root], {}, 0) == Found ==> Reaches(g, q, root)
    ensures Explore(g, q, [root], {}, 0) == Drained <==> !Reaches(g, q, root) && Narrow(g, q, root)
    ensures Narrow(g, q, root) ==> (Explore(g, q, [root], {}, 0) == Found <==> Reaches(g, q, root))
  {
    hide Explore, Reaches, Narrow;
    RootLeads(g, q, root);
    FoundIsWalk(g, q, [root], {}, 0, root);
    DrainedIsExhaustive(g, q, [root], {}, 0, root);
    NarrowIff(g, q, root);
  }

  lemma RootLeads(g: Graph, q: Query, root: nat)
    requires root < |g|
    ensures Leads(g, q, root, root) && Exhausting(g, q, [root], {})
  {
    assert Walk(g, q, [root]);
  }

  lemma NarrowIff(g: Graph, q: Query, root: nat)
    requires Closed(g) && root < |g|
    ensures Narrow(g, q, root) ==> Explore(g, q, [root], {}, 0) != GaveUp
    ensures Explore(g, q, [root], {}, 0) == Drained ==> Narrow(g, q, root)
  {
    hide Explore, Sum, Ahead, Exhausting;
    RootLeads(g, q, root);
    if Narrow(g, q, root) {
      var c: set<nat> :| Cone(g, q, c, root) && Sum(Ahead(g, q, c, {})) < STEP_LIMIT;
      EnoughSteps(g, q, c, root, [root], {}, 0);
    }
    if Explore(g, q, [root], {}, 0) == Drained {
      var c := DrainedCone(g, q, root, [root], {}, 0);
    }
  }

  // ------------------------------------------------------------------
  // The limit is real.
  // ------------------------------------------------------------------

  /** An address whose first operand is loaded and whose other operands are one constant, n times. */
  function WideAddress(n: nat): (g: Graph)
    ensures Closed(g) && |g| == 3
  {
    [Node(Gep, [1] + seq(n, _ => 2)), Node(Load, []), Node(Opaque, [])]
  }

  lemma {:induction false} Trudge(n: nat, k: nat, steps: nat, seen: set<nat>)
    requires k <= n && steps <= STEP_LIMIT && steps + k >= STEP_LIMIT
    ensures Explore(WideAddress(n), LoadedIndex, [1] + seq(k, _ => 2), seen, steps) == GaveUp
    decreases k
  {
    if steps < STEP_LIMIT {
      var work := [1] + seq(k, _ => 2);
      assert work[|work| - 1] == 2;
      assert work[..|work| - 1] == [1] + seq(k - 1, _ => 2);
      Trudge(n, k - 1, steps + 1, if 2 in seen then seen else seen + {2});
    }
  }

  lemma WideStarts(n: nat)
    ensures Explore(WideAddress(n), LoadedIndex, [0], {}, 0)
            == Explore(WideAddress(n), LoadedIndex, [1] + seq(n, _ => 2), {0}, 1)
  {
    var g := WideAddress(n);
    assert [0][..0] + g[0].operands == [1] + seq(n, _ => 2);
    assert {} + {0} == {0};
  }

  lemma WideReaches(n: nat)
    ensures Reaches(WideAddress(n), LoadedIndex, 0)
  {
    var g := WideAddress(n);
    var p: seq<nat> := [0, 1];
    assert g[0].operands[0] == 1;
    var load: nat := 1;
    assert Walk(g, LoadedIndex, p) && p[0] == 0 && p[|p| - 1] == load;
    assert load < |g| && Leads(g, LoadedIndex, 0, load) && Target(LoadedIndex, g[load].kind);
  }

  lemma WideCone(n: nat)
    requires n < 255
    ensures Narrow(WideAddress(n), LoadedIndex, 0)
  {
    var g := WideAddress(n);
    var c: set<nat> := {0, 1, 2};
    var out := Ahead(g, LoadedIndex, c, {});
    assert out == [n + 1, 0, 0];
    assert out[..2] == [n + 1, 0] && [n + 1, 0][..1] == [n + 1] && [n + 1][..0] == [];
    assert Sum([n + 1]) == n + 1 && Sum([n + 1, 0]) == n + 1 && Sum(out) == n + 1;
    assert Cone(g, LoadedIndex, c, 0);
  }

  /** The search finds the load up to 254 such operands; from 255 on it gives up and misses it. */
  lemma WideAddressMissed(n: nat)
    ensures Reaches(WideAddress(n), LoadedIndex, 0)
    ensures Explore(WideAddress(n), LoadedIndex, [0], {}, 0) == if n < 255 then Found else GaveUp
  {
    hide Explore, Reaches, Narrow;
    WideReaches(n);
    if n < 255 {
      WideCone(n);
      SearchExact(WideAddress(n), LoadedIndex, 0);
    } else {
      WideStarts(n);
      Trudge(n, n, 1, {0});
    }
  }

  /** A value of one kind over a value of another. */
  function Over(k: Kind, t: Kind): (g: Graph)
    ensures Closed(g) && |g| == 2
  {
    [Node(k, [1]), Node(t, [])]
  }

  /**
   The loaded-index search looks through address arithmetic, phis, binary operators, casts and selects,
   and unary operators, for a load. The slot search looks through the same but the unary operators, for
   a read of the slot coordinate, and never through a load.
   */
  lemma LooksThrough(k: Kind, t: Kind)
    ensures Explore(Over(k, t), LoadedIndex, [0], {}, 0) == Found
            <==> k == Load || ((k == Gep || k == Phi || k == Arith || k == Unary) && t == Load)
    ensures Explore(Over(k, t), SlotCoordinate, [0], {}, 0) == Found
            <==> k == SlotRead || ((k == Gep || k == Phi || k == Arith) && t == SlotRead)
  {
    LooksOnce(k, t, LoadedIndex);
    LooksOnce(k, t, SlotCoordinate);
  }

  lemma LooksOnce(k: Kind, t: Kind, q: Query)
    ensures Explore(Over(k, t), q, [0], {}, 0) == Found <==> Target(q, k) || (Transparent(q, k) && Target(q, t))
  {
    hide Explore;
    var g := Over(k, t);
    assert [0][..0] + g[0].operands == [1] && [0][..0] == [] && {} + {0} == {0};
    ExploreUnfolds(g, q, [0], {}, 0);
    ExploreEnds(g, q, [], {0}, 1);
    LooksLast(g, q);
  }

  lemma LooksLast(g: Graph, q: Query)
    requires Closed(g) && |g| == 2 && g[1].operands == []
    ensures Explore(g, q, [1], {0}, 1) == Found <==> Target(q, g[1].kind)
  {
    hide Explore;
    assert [1][..0] + g[1].operands == [] && [1][..0] == [];
    ExploreUnfolds(g, q, [1], {0}, 1);
    ExploreEnds(g, q, [], {0} + {1}, 2);
  }

  // ------------------------------------------------------------------
  // Which loads are streams.
  // ------------------------------------------------------------------

  /** A load of an innermost loop: its address value, and its constant stride (0 when it has none). */
  datatype Stream = Stream(address: nat, stride: int)

  ghost predicate Gathers(g: Graph, s: Stream) {
    Closed(g) && s.address < |g| && Explore(g, LoadedIndex, [s.address], {}, 0) == Found
  }

  ghost predicate Slotted(g: Graph, s: Stream) {
    Closed(g) && s.address < |g| && s.stride != 0 && Explore(g, SlotCoordinate, [s.address], {}, 0) == Found
  }

  predicate Addressed(g: Graph, loads: seq<Stream>) {
    forall k :: 0 <= k < |loads| ==> loads[k].address < |g|
  }

  /** The loads of the loops, loop after loop. */
  function Flat(loops: seq<seq<Stream>>): seq<Stream> {
    if loops == [] then [] else Flat(loops[..|loops| - 1]) + loops[|loops| - 1]
  }

  /** The strided loads with a loaded index. */
  ghost function IndexSites(g: Graph, loads: seq<Stream>): (sites: seq<Stream>)
    ensures forall k :: 0 <= k < |sites| ==> sites[k] in loads && Gathers(g, sites[k]) && sites[k].stride != 0
  {
    if loads == [] then []
    else
      var s := loads[|loads| - 1];
      IndexSites(g, loads[..|loads| - 1]) + if Gathers(g, s) && s.stride != 0 then [s] else []
  }

  ghost predicate SomeGather(g: Graph, loads: seq<Stream>) {
    exists k :: 0 <= k < |loads| && Gathers(g, loads[k])
  }

  function Take(sites: seq<Stream>, n: nat): seq<Stream> {
    if |sites| <= n then sites else sites[..n]
  }

  /** The first load of one loop that streams by the slot coordinate, if there is one. */
  ghost function FirstSlotted(g: Graph, loads: seq<Stream>): (sites: seq<Stream>)
    ensures |sites| <= 1
  {
    if loads == [] then []
    else
      var before := FirstSlotted(g, loads[..|loads| - 1]);
      if before != [] then before
      else if Slotted(g, loads[|loads| - 1]) then [loads[|loads| - 1]] else []
  }

  /** One load a loop. */
  ghost function SlotSites(g: Graph, loops: seq<seq<Stream>>): seq<Stream> {
    if loops == [] then []
    else SlotSites(g, loops[..|loops| - 1]) + FirstSlotted(g, loops[|loops| - 1])
  }

  /** It is in the loop, it streams by the slot coordinate, and it is missing only if no load does. */
  lemma {:induction false} FirstSlottedIs(g: Graph, loads: seq<Stream>)
    ensures var sites := FirstSlotted(g, loads);
            && (forall k :: 0 <= k < |sites| ==> sites[k] in loads && Slotted(g, sites[k]))
            && (sites == [] <==> forall k :: 0 <= k < |loads| ==> !Slotted(g, loads[k]))
  {
    hide Slotted;
    if loads != [] { FirstSlottedIs(g, loads[..|loads| - 1]); }
  }

  lemma {:induction false} SlotSitesAre(g: Graph, loops: seq<seq<Stream>>)
    ensures forall k :: 0 <= k < |SlotSites(g, loops)| ==> Slotted(g, SlotSites(g, loops)[k])
  {
    hide Slotted, FirstSlotted;
    if loops != [] {
      SlotSitesAre(g, loops[..|loops| - 1]);
      FirstSlottedIs(g, loops[|loops| - 1]);
    }
  }

  /** The indexed sites are exactly the strided loads whose search finds a loaded index. */
  lemma {:induction false} IndexSitesAre(g: Graph, loads: seq<Stream>, s: Stream)
    requires Closed(g) && Addressed(g, loads)
    ensures s in IndexSites(g, loads)
            <==> s in loads && s.stride != 0 && Explore(g, LoadedIndex, [s.address], {}, 0) == Found
  {
    hide Explore;
    if loads != [] {
      var n := |loads| - 1;
      IndexSitesAre(g, loads[..n], s);
      assert loads == loads[..n] + [loads[n]];
    }
  }

  lemma SitesAppend(g: Graph, loads: seq<Stream>, s: Stream)
    ensures IndexSites(g, loads + [s])
            == IndexSites(g, loads) + if Gathers(g, s) && s.stride != 0 then [s] else []
    ensures SomeGather(g, loads + [s]) <==> SomeGather(g, loads) || Gathers(g, s)
  {
    var all := loads + [s];
    assert all[..|all| - 1] == loads && all[|all| - 1] == s;
    if SomeGather(g, loads) {
      var k :| 0 <= k < |loads| && Gathers(g, loads[k]);
      assert Gathers(g, all[k]);
    }
    if Gathers(g, s) {
      assert Gathers(g, all[|loads|]);
    }
  }

  /** Pass 1 over one loop, after the loops before it. */
  method ScanIndexed(g: Graph, ghost done: seq<Stream>, loads: seq<Stream>, sites0: seq<Stream>, saw0: bool)
    returns (sites: seq<Stream>, saw: bool)
    requires Closed(g) && Addressed(g, loads)
    requires sites0 == Take(IndexSites(g, done), 4) && (|sites0| < 4 ==> (saw0 <==> SomeGather(g, done)))
    ensures sites == Take(IndexSites(g, done + loads), 4)
    ensures |sites| < 4 ==> (saw <==> SomeGather(g, done + loads))
  {
    hide Explore, IndexSites, SomeGather, Reaches;
    sites, saw := sites0, saw0;
    assert done + loads[..0] == done;
    for k := 0 to |loads|
      invariant sites == Take(IndexSites(g, done + loads[..k]), 4)
      invariant |sites| < 4 ==> (saw <==> SomeGather(g, done + loads[..k]))
    {
      SitesAppend(g, done + loads[..k], loads[k]);
      assert done + loads[..k] + [loads[k]] == done + loads[..k + 1];
      if |sites| < 4 {
        var gathers := Search(g, LoadedIndex, loads[k].address);
        if gathers {
          saw := true;
          if loads[k].stride != 0 {
            sites := sites + [loads[k]];
          }
        }
      }
    }
    assert loads[..|loads|] == loads;
  }

  /** Pass 2 over one loop: its first stream by the slot coordinate. */
  method ScanSlotted(g: Graph, loads: seq<Stream>) returns (sites: seq<Stream>)
    requires Closed(g) && Addressed(g, loads)
    ensures sites == FirstSlotted(g, loads)
  {
    hide Explore, Reaches;
    sites := [];
    for k := 0 to |loads|
      invariant sites == FirstSlotted(g, loads[..k])
    {
      assert loads[..k + 1][..k] == loads[..k];
      if sites == [] && loads[k].stride != 0 {
        var slotted := Search(g, SlotCoordinate, loads[k].address);
        if slotted {
          sites := [loads[k]];
        }
      }
    }
    assert loads[..|loads|] == loads;
  }

  /**
   The stream sites of a kernel. An arithmetic classification is positive: it is made only when no
   load of any innermost loop was seen with a loaded index, and every arithmetic site reaches the
   slot coordinate. A kernel that gathers but has no strided gather gets no site at all.
   */
  method FindSites(g: Graph, loops: seq<seq<Stream>>) returns (sites: seq<Stream>, arithmetic: bool)
    requires Closed(g) && forall i :: 0 <= i < |loops| ==> Addressed(g, loops[i])
    ensures !arithmetic ==> sites == Take(IndexSites(g, Flat(loops)), 4)
    ensures !arithmetic <==> IndexSites(g, Flat(loops)) != [] || SomeGather(g, Flat(loops))
    ensures arithmetic ==> sites == Take(SlotSites(g, loops), 2)
  {
    hide Explore, IndexSites, SomeGather, SlotSites, FirstSlotted;
    var saw := false;
    sites := [];
    assert IndexSites(g, []) == [] && !SomeGather(g, []) by { Nothing(g); }
    var i := 0;
    assert loops[..0] == [] && Flat([]) == [];
    while i < |loops|
      invariant i <= |loops| && sites == Take(IndexSites(g, Flat(loops[..i])), 4)
      invariant |sites| < 4 ==> (saw <==> SomeGather(g, Flat(loops[..i])))
    {
      sites, saw := ScanIndexed(g, Flat(loops[..i]), loops[i], sites, saw);
      assert loops[..i + 1][..i] == loops[..i];
      i := i + 1;
    }
    assert loops[..|loops|] == loops;
    if sites != [] || saw {
      return sites, false;
    }
    i := 0;
    assert SlotSites(g, []) == [] by { Nothing(g); }
    while i < |loops| && |sites| < 2
      invariant i <= |loops| && |sites| <= 2
      invariant sites == Take(SlotSites(g, loops[..i]), 2)
      decreases |loops| - i
    {
      var first := ScanSlotted(g, loops[i]);
      SlotAppend(g, loops[..i], loops[i]);
      assert loops[..i] + [loops[i]] == loops[..i + 1];
      sites := sites + first;
      i := i + 1;
    }
    SlotPrefix(g, loops, i);
    arithmetic := true;
  }

  lemma Nothing(g: Graph)
    ensures IndexSites(g, []) == [] && !SomeGather(g, []) && SlotSites(g, []) == []
  {
  }

  lemma SlotAppend(g: Graph, loops: seq<seq<Stream>>, loads: seq<Stream>)
    ensures SlotSites(g, loops + [loads]) == SlotSites(g, loops) + FirstSlotted(g, loads)
    ensures |FirstSlotted(g, loads)| <= 1
  {
    assert (loops + [loads])[..|loops|] == loops;
  }

  lemma {:induction false} SlotPrefix(g: Graph, loops: seq<seq<Stream>>, i: nat)
    requires i <= |loops|
    ensures SlotSites(g, loops[..i]) <= SlotSites(g, loops)
    decreases |loops|
  {
    if i < |loops| {
      SlotPrefix(g, loops[..|loops| - 1], i);
      assert loops[..|loops| - 1][..i] == loops[..i];
    } else {
      assert loops[..i] == loops;
    }
  }

  /**
   In a kernel classed arithmetic each site's address depends on the slot coordinate, and no load of
   an innermost loop whose address has a cone the search can finish depends on a loaded value.
   */
  lemma ArithmeticIsPositive(g: Graph, loops: seq<seq<Stream>>, s: Stream)
    requires Closed(g) && Addressed(g, Flat(loops)) && !SomeGather(g, Flat(loops))
    ensures s in Flat(loops) && Narrow(g, LoadedIndex, s.address) ==> !Reaches(g, LoadedIndex, s.address)
    ensures s in SlotSites(g, loops) ==>
              s.address < |g| && s.stride != 0 && Reaches(g, SlotCoordinate, s.address)
  {
    hide Explore, Reaches, Narrow;
    if s in Flat(loops) {
      var k :| 0 <= k < |Flat(loops)| && Flat(loops)[k] == s;
      SearchExact(g, LoadedIndex, s.address);
    }
    SlotSitesAre(g, loops);
    if s in SlotSites(g, loops) {
      assert Slotted(g, s);
      SearchExact(g, SlotCoordinate, s.address);
    }
  }
}
