/** Directed graphs stored as adjacency maps: least closed sets, rankings and worklists. */
module Graph {
  import opened Prelude

  type Edges = map<Id, set<Id>>

  function Succ(g: Edges, x: Id): set<Id> { if x in g then g[x] else {} }

  function Nodes(g: Edges): set<Id> { set x, y | x in g && y in g[x] :: y }

  /** `t` contains every root outside `avoid` and is closed under the edges that stay outside `avoid`. */
  ghost predicate Covers(g: Edges, avoid: set<Id>, roots: set<Id>, t: set<Id>) {
    && roots - avoid <= t
    && forall x :: x in t ==> Succ(g, x) - avoid <= t
  }

  /** What can be reached from `roots` without entering `avoid`: the least covering set. */
  ghost function Reach(g: Edges, avoid: set<Id>, roots: set<Id>): set<Id> {
    set x | x in roots + Nodes(g) && forall t: set<Id> :: Covers(g, avoid, roots, t) ==> x in t
  }

  ghost function Ancestors(g: Edges, x: Id): set<Id> { Reach(g, {}, Succ(g, x)) }

  lemma SuccInNodes(g: Edges, x: Id)
    ensures Succ(g, x) <= Nodes(g)
  {
  }

  lemma NodesCover(g: Edges, avoid: set<Id>, roots: set<Id>)
    ensures Covers(g, avoid, roots, roots + Nodes(g) - avoid)
  {
    forall x ensures Succ(g, x) <= Nodes(g) { SuccInNodes(g, x); }
  }

  lemma ReachLeast(g: Edges, avoid: set<Id>, roots: set<Id>, t: set<Id>)
    requires Covers(g, avoid, roots, t)
    ensures Reach(g, avoid, roots) <= t
  {
  }

  lemma ReachCovers(g: Edges, avoid: set<Id>, roots: set<Id>)
    ensures Covers(g, avoid, roots, Reach(g, avoid, roots))
    ensures Reach(g, avoid, roots) !! avoid
  {
    var r := Reach(g, avoid, roots);
    NodesCover(g, avoid, roots);
    ReachLeast(g, avoid, roots, roots + Nodes(g) - avoid);
    forall x | x in r
      ensures Succ(g, x) - avoid <= r
    {
      SuccInNodes(g, x);
      forall y, t: set<Id> | y in Succ(g, x) - avoid && Covers(g, avoid, roots, t)
        ensures y in t
      {
        assert x in t;
      }
    }
  }

  /** A covering set that lies in every covering set is the reachable set. */
  lemma ReachIs(g: Edges, avoid: set<Id>, roots: set<Id>, s: set<Id>)
    requires Covers(g, avoid, roots, s)
    requires forall t: set<Id> :: Covers(g, avoid, roots, t) ==> s <= t
    ensures s == Reach(g, avoid, roots)
  {
    ReachCovers(g, avoid, roots);
    ReachLeast(g, avoid, roots, s);
  }

  /** More edges and more roots reach more. */
  lemma ReachMono(g: Edges, h: Edges, avoid: set<Id>, roots: set<Id>, more: set<Id>)
    requires forall x :: Succ(g, x) <= Succ(h, x)
    requires roots - avoid <= Reach(h, avoid, more)
    ensures Reach(g, avoid, roots) <= Reach(h, avoid, more)
  {
    var r := Reach(h, avoid, more);
    ReachCovers(h, avoid, more);
    forall x | x in r ensures Succ(g, x) - avoid <= r {
      assert Succ(g, x) <= Succ(h, x);
    }
    ReachLeast(g, avoid, roots, r);
  }

  /** A node and everything reachable from it. */
  lemma ReachSelf(g: Edges, x: Id)
    ensures Reach(g, {}, {x}) == {x} + Reach(g, {}, Succ(g, x))
  {
    var rest := Reach(g, {}, Succ(g, x));
    ReachCovers(g, {}, Succ(g, x));
    ReachCovers(g, {}, {x});
    ReachLeast(g, {}, {x}, {x} + rest);
    ReachLeast(g, {}, Succ(g, x), Reach(g, {}, {x}));
  }

  // ── Rankings: a graph is acyclic when its edges strictly lower some bounded rank ──

  ghost predicate Ranked(g: Edges, rank: Id -> nat, bound: nat) {
    && (forall x :: rank(x) <= bound)
    && (forall x, y :: x in g && y in g[x] ==> rank(y) < rank(x))
  }

  ghost predicate Acyclic(g: Edges) {
    exists rank: Id -> nat, bound: nat :: Ranked(g, rank, bound)
  }

  /** A walk along the edges. */
  ghost predicate Walk(g: Edges, xs: seq<Id>) {
    && |xs| > 0
    && forall i :: 0 <= i < |xs| - 1 ==> xs[i + 1] in Succ(g, xs[i])
  }

  lemma {:induction false} WalkRank(g: Edges, rank: Id -> nat, bound: nat, xs: seq<Id>)
    requires Ranked(g, rank, bound) && Walk(g, xs)
    ensures rank(xs[|xs| - 1]) + |xs| - 1 <= rank(xs[0])
  {
    if |xs| > 1 {
      assert xs[1] in Succ(g, xs[0]);
      forall i | 0 <= i < |xs[1..]| - 1 ensures xs[1..][i + 1] in Succ(g, xs[1..][i]) {
        assert xs[(i + 1) + 1] in Succ(g, xs[i + 1]);
      }
      WalkRank(g, rank, bound, xs[1..]);
    }
  }

  /** A walk from one of `roots` to `x` that stays outside `avoid`. */
  ghost predicate Leads(g: Edges, avoid: set<Id>, roots: set<Id>, x: Id, xs: seq<Id>) {
    Walk(g, xs) && xs[0] in roots && xs[|xs| - 1] == x && forall i :: 0 <= i < |xs| ==> xs[i] !in avoid
  }

  lemma {:induction false} WalkReaches(g: Edges, avoid: set<Id>, roots: set<Id>, xs: seq<Id>, i: nat)
    requires Walk(g, xs) && xs[0] in roots && i < |xs| && forall j :: 0 <= j <= i ==> xs[j] !in avoid
    ensures xs[i] in Reach(g, avoid, roots)
  {
    ReachCovers(g, avoid, roots);
    if i > 0 {
      WalkReaches(g, avoid, roots, xs, i - 1);
      assert xs[i - 1 + 1] in Succ(g, xs[i - 1]);
    }
  }

  /** What can be reached is what a walk leads to. */
  lemma ReachIffWalk(g: Edges, avoid: set<Id>, roots: set<Id>, x: Id)
    ensures x in Reach(g, avoid, roots) <==> exists xs :: Leads(g, avoid, roots, x, xs)
  {
    if xs :| Leads(g, avoid, roots, x, xs) { WalkReaches(g, avoid, roots, xs, |xs| - 1); }
    if x in Reach(g, avoid, roots) {
      var t := set y | y in Reach(g, avoid, roots) && exists xs :: Leads(g, avoid, roots, y, xs);
      ReachCovers(g, avoid, roots);
      forall y | y in roots - avoid ensures y in t { assert Leads(g, avoid, roots, y, [y]); }
      forall y, z | y in t && z in Succ(g, y) - avoid ensures z in t {
        var xs :| Leads(g, avoid, roots, y, xs);
        assert Leads(g, avoid, roots, z, xs + [z]);
      }
      ReachLeast(g, avoid, roots, t);
    }
  }

  /** In an acyclic graph no walk of at least one edge returns to its start. */
  lemma NoCycle(g: Edges, xs: seq<Id>)
    requires Acyclic(g) && Walk(g, xs) && |xs| > 1
    ensures xs[0] != xs[|xs| - 1]
  {
    var rank: Id -> nat, bound: nat :| Ranked(g, rank, bound);
    WalkRank(g, rank, bound, xs);
  }

  lemma RankedSubgraph(g: Edges, h: Edges, rank: Id -> nat, bound: nat)
    requires Ranked(g, rank, bound) && forall x :: Succ(h, x) <= Succ(g, x)
    ensures Ranked(h, rank, bound)
  {
    forall x, y | x in h && y in h[x] ensures rank(y) < rank(x) {
      assert Succ(h, x) <= Succ(g, x);
      assert y in Succ(g, x);
    }
  }

  lemma AcyclicSubgraph(g: Edges, h: Edges)
    requires Acyclic(g) && forall x :: Succ(h, x) <= Succ(g, x)
    ensures Acyclic(h)
  {
    var rank: Id -> nat, bound: nat :| Ranked(g, rank, bound);
    RankedSubgraph(g, h, rank, bound);
  }

  /**
   * Adding edges out of `b` keeps a graph acyclic when some closed set contains their targets
   * but not `b`: this is what a finished walk over the ancestors of `b` establishes.
   */
  lemma AcyclicExtend(g: Edges, h: Edges, b: Id, targets: set<Id>, closed: set<Id>)
    requires Acyclic(g)
    requires Covers(g, {}, targets, closed) && b !in closed
    requires forall x :: Succ(h, x) <= Succ(g, x) + (if x == b then targets else {})
    ensures Acyclic(h)
  {
    var rank: Id -> nat, bound: nat :| Ranked(g, rank, bound);
    var rank': Id -> nat := (x: Id) => if x in closed then rank(x) else rank(x) + bound + 1;
    forall x ensures rank'(x) <= 2 * bound + 1 { assert rank(x) <= bound; }
    forall x, y | x in h && y in h[x]
      ensures rank'(y) < rank'(x)
    {
      assert Succ(h, x) <= Succ(g, x) + (if x == b then targets else {});
      assert rank(y) <= bound;
      if y in Succ(g, x) {
        assert rank(y) < rank(x);
        assert x in closed ==> y in closed;
      }
    }
    assert Ranked(h, rank', 2 * bound + 1);
  }

  /** Everything reachable from the successors of `x` ranks strictly below `x`. */
  lemma ReachRank(g: Edges, rank: Id -> nat, bound: nat, x: Id)
    requires Ranked(g, rank, bound)
    ensures forall y :: y in Reach(g, {}, Succ(g, x)) ==> rank(y) < rank(x)
  {
    var t := set y | y in Nodes(g) && rank(y) < rank(x);
    SuccInNodes(g, x);
    forall y | y in t ensures Succ(g, y) <= t { SuccInNodes(g, y); }
    ReachLeast(g, {}, Succ(g, x), t);
  }

  /** No node of an acyclic graph is among its own proper ancestors. */
  lemma ReachIrreflexive(g: Edges, x: Id)
    requires Acyclic(g)
    ensures x !in Reach(g, {}, Succ(g, x))
  {
    var rank: Id -> nat, bound: nat :| Ranked(g, rank, bound);
    ReachRank(g, rank, bound, x);
  }

  // ── Worklists ──

  /** State of a worklist: `visited` is done, `stack` is still to be looked at. */
  ghost predicate Exploring(g: Edges, avoid: set<Id>, roots: set<Id>, visited: set<Id>, stack: seq<Id>) {
    && visited !! avoid
    && visited + Elems(stack) <= roots + Nodes(g)
    && roots - avoid <= visited + Elems(stack)
    && (forall x :: x in visited ==> Succ(g, x) - avoid <= visited + Elems(stack))
    && (forall t: set<Id> :: Covers(g, avoid, roots, t) ==> visited <= t && Elems(stack) - avoid <= t)
  }

  lemma ExploreStart(g: Edges, avoid: set<Id>, roots: set<Id>, stack: seq<Id>)
    requires Elems(stack) == roots
    ensures Exploring(g, avoid, roots, {}, stack)
  {
  }

  lemma PopElems(stack: seq<Id>)
    requires stack != []
    ensures Elems(stack) == Elems(stack[..|stack| - 1]) + {stack[|stack| - 1]}
  {
    ElemsAppend(stack[..|stack| - 1], stack[|stack| - 1]);
    assert stack == stack[..|stack| - 1] + [stack[|stack| - 1]];
  }

  /** Popping an avoided or already visited node changes nothing else. */
  lemma ExploreSkip(g: Edges, avoid: set<Id>, roots: set<Id>, visited: set<Id>, stack: seq<Id>)
    requires Exploring(g, avoid, roots, visited, stack) && stack != []
    requires stack[|stack| - 1] in visited + avoid
    ensures Exploring(g, avoid, roots, visited, stack[..|stack| - 1])
    ensures stack[|stack| - 1] in roots + Nodes(g)
  {
    PopElems(stack);
  }

  /** Popping a new node visits it and pushes its successors, in any order. */
  lemma ExploreVisit(g: Edges, avoid: set<Id>, roots: set<Id>, visited: set<Id>, stack: seq<Id>, next: seq<Id>)
    requires Exploring(g, avoid, roots, visited, stack) && stack != []
    requires stack[|stack| - 1] !in visited + avoid
    requires Elems(next) == Succ(g, stack[|stack| - 1])
    ensures Exploring(g, avoid, roots, visited + {stack[|stack| - 1]}, stack[..|stack| - 1] + next)
    ensures stack[|stack| - 1] in roots + Nodes(g)
  {
    var x := stack[|stack| - 1];
    PopElems(stack);
    ElemsConcat(stack[..|stack| - 1], next);
    SuccInNodes(g, x);
  }

  lemma ExploreDone(g: Edges, avoid: set<Id>, roots: set<Id>, visited: set<Id>)
    requires Exploring(g, avoid, roots, visited, [])
    ensures visited == Reach(g, avoid, roots)
  {
    ReachIs(g, avoid, roots, visited);
  }
}
