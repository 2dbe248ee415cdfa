/**
 * Depth and package aggregates (src/mempool/submit.rs:628-702) against the ancestor graph:
 * depth is the longest ancestor path, package sums cover the ancestor set.
 */
module Packages {
  import opened Prelude
  import opened Sums
  import opened Graph
  import opened PoolState

  // Everything here is about a parent relation `g` (child to parents), closed over `universe`.

  ghost predicate ParentClosed(g: Edges, universe: set<Id>) {
    forall x :: x in universe ==> Succ(g, x) <= universe
  }

  // ── Depth ──

  ghost function Depths(depth: map<Id, nat>, parents: set<Id>): set<nat> {
    set q | q in parents && q in depth :: depth[q]
  }

  /** 0 without parents, else one more than the deepest (active) parent. */
  ghost function DepthOver(depth: map<Id, nat>, parents: set<Id>): nat {
    if parents == {} then 0 else 1 + MaxOf(Depths(depth, parents))
  }

  ghost predicate DepthsExact(depth: map<Id, nat>, g: Edges) {
    forall b :: b in depth ==> depth[b] == DepthOver(depth, Succ(g, b))
  }

  lemma ParentShallower(depth: map<Id, nat>, g: Edges, b: Id, q: Id)
    requires DepthsExact(depth, g) && b in depth && q in depth && q in Succ(g, b)
    ensures depth[q] < depth[b]
  {
    assert depth[q] in Depths(depth, Succ(g, b));
  }

  /** No ancestor path is longer than the depth... */
  lemma {:induction false} DepthBoundsWalks(depth: map<Id, nat>, g: Edges, xs: seq<Id>)
    requires DepthsExact(depth, g) && ParentClosed(g, depth.Keys) && Walk(g, xs) && xs[0] in depth
    ensures |xs| - 1 <= depth[xs[0]]
  {
    if |xs| > 1 {
      assert xs[1] in Succ(g, xs[0]);
      ParentShallower(depth, g, xs[0], xs[1]);
      forall i | 0 <= i < |xs[1..]| - 1 ensures xs[1..][i + 1] in Succ(g, xs[1..][i]) {
        assert xs[(i + 1) + 1] in Succ(g, xs[i + 1]);
      }
      DepthBoundsWalks(depth, g, xs[1..]);
    }
  }

  /** ... and one is exactly that long. */
  lemma {:induction false} DepthIsReached(depth: map<Id, nat>, g: Edges, b: Id) returns (xs: seq<Id>)
    requires DepthsExact(depth, g) && ParentClosed(g, depth.Keys) && b in depth
    ensures Walk(g, xs) && xs[0] == b && |xs| - 1 == depth[b]
    decreases depth[b]
  {
    if Succ(g, b) == {} {
      xs := [b];
    } else {
      var some :| some in Succ(g, b);
      assert depth[some] in Depths(depth, Succ(g, b));
      var q :| q in Succ(g, b) && q in depth && depth[q] == MaxOf(Depths(depth, Succ(g, b)));
      ParentShallower(depth, g, b, q);
      var rest := DepthIsReached(depth, g, q);
      xs := [b] + rest;
      forall i | 0 <= i < |xs| - 1 ensures xs[i + 1] in Succ(g, xs[i]) {
        if i > 0 { assert rest[(i - 1) + 1] in Succ(g, rest[i - 1]); }
      }
    }
  }

  /** Depth is the length of the longest ancestor path. */
  lemma DepthIsLongestPath(depth: map<Id, nat>, g: Edges, b: Id)
    requires DepthsExact(depth, g) && ParentClosed(g, depth.Keys) && b in depth
    ensures forall xs :: Walk(g, xs) && xs[0] == b ==> |xs| - 1 <= depth[b]
    ensures exists xs :: Walk(g, xs) && xs[0] == b && |xs| - 1 == depth[b]
  {
    forall xs | Walk(g, xs) && xs[0] == b ensures |xs| - 1 <= depth[b] {
      DepthBoundsWalks(depth, g, xs);
    }
    var xs := DepthIsReached(depth, g, b);
  }

  lemma JoinedSucc(g: Edges, parents: set<Id>, id: Id)
    requires Succ(g, id) == {}
    ensures forall x :: Succ(JoinParents(g, parents, id), x) == if x == id then parents else Succ(g, x)
  {
    assert Succ(g, id) + parents == parents;
  }

  /** A newcomer with active parents gets the right depth; nobody else's changes. */
  lemma JoinDepths(depth: map<Id, nat>, g: Edges, id: Id, parents: set<Id>)
    requires DepthsExact(depth, g) && ParentClosed(g, depth.Keys) && id !in depth && parents <= depth.Keys && Succ(g, id) == {}
    ensures DepthsExact(depth[id := DepthOver(depth, parents)], JoinParents(g, parents, id))
  {
    var d, h := depth[id := DepthOver(depth, parents)], JoinParents(g, parents, id);
    JoinedSucc(g, parents, id);
    forall b | b in d ensures d[b] == DepthOver(d, Succ(h, b)) {
      assert Succ(h, b) <= depth.Keys;
      assert Depths(d, Succ(h, b)) == Depths(depth, Succ(h, b));
    }
  }

  /** Survivors that keep their parents keep their depth. */
  lemma DropDepths(depth: map<Id, nat>, g: Edges, gone: set<Id>, h: Edges)
    requires DepthsExact(depth, g) && ParentClosed(h, depth.Keys - gone)
    requires forall b :: b in depth.Keys - gone ==> Succ(h, b) == Succ(g, b)
    ensures DepthsExact(depth - gone, h)
  {
    forall b | b in depth - gone ensures (depth - gone)[b] == DepthOver(depth - gone, Succ(h, b)) {
      assert Depths(depth - gone, Succ(h, b)) == Depths(depth, Succ(g, b));
    }
  }

  // ── Package sums ──

  /** Each package value is the item's own value plus its direct parents' package values. */
  ghost predicate Aggregated(own: map<Id, nat>, pack: map<Id, nat>, g: Edges) {
    && own.Keys == pack.Keys
    && ParentClosed(g, own.Keys)
    && forall b :: b in own ==> pack[b] == own[b] + Sum(pack, Succ(g, b))
  }

  /** An item and all its ancestors. */
  ghost function Up(g: Edges, roots: set<Id>): set<Id> { Reach(g, {}, roots) }

  lemma UpFacts(g: Edges, roots: set<Id>, universe: set<Id>)
    requires roots <= universe && ParentClosed(g, universe)
    ensures roots <= Up(g, roots) <= universe
  {
    ReachCovers(g, {}, roots);
    ReachLeast(g, {}, roots, universe);
  }

  lemma UpSplit(g: Edges, roots: set<Id>, q: Id)
    requires q in roots
    ensures Up(g, roots) == Up(g, roots - {q}) + Up(g, {q})
    ensures Up(g, {q}) == {q} + Up(g, Succ(g, q))
  {
    ReachSelf(g, q);
    ReachCovers(g, {}, roots - {q});
    ReachCovers(g, {}, {q});
    ReachCovers(g, {}, roots);
    ReachLeast(g, {}, roots, Up(g, roots - {q}) + Up(g, {q}));
    ReachLeast(g, {}, roots - {q}, Up(g, roots));
    ReachLeast(g, {}, {q}, Up(g, roots));
  }

  /** Splitting one root off the sum over all ancestors. */
  lemma UpSum(own: map<Id, nat>, g: Edges, roots: set<Id>, q: Id)
    requires q in roots && roots <= own.Keys && ParentClosed(g, own.Keys)
    ensures Up(g, roots) <= own.Keys && Up(g, roots - {q}) <= own.Keys && Up(g, Succ(g, q)) <= own.Keys
    ensures var parts := Sum(own, Up(g, roots - {q})) + own[q] + Sum(own, Up(g, Succ(g, q)));
      && Sum(own, Up(g, roots)) <= parts
      && (Up(g, roots - {q}) !! Up(g, {q}) && q !in Up(g, Succ(g, q)) ==> Sum(own, Up(g, roots)) == parts)
  {
    UpFacts(g, roots, own.Keys);
    UpFacts(g, roots - {q}, own.Keys);
    UpFacts(g, Succ(g, q), own.Keys);
    UpSplit(g, roots, q);
    SumUnion(own, {q}, Up(g, Succ(g, q)));
    SumPull(own, {q}, q);
    SumUnion(own, Up(g, roots - {q}), Up(g, {q}));
  }

  /** The package values of `roots` cover their own values and all their ancestors'. */
  lemma {:induction false} PackageCoversAncestors(own: map<Id, nat>, pack: map<Id, nat>, g: Edges, roots: set<Id>,
                                                  rank: Id -> nat, bound: nat, below: nat)
    requires Aggregated(own, pack, g) && Ranked(g, rank, bound) && roots <= own.Keys
    requires forall q :: q in roots ==> rank(q) < below
    ensures Up(g, roots) <= own.Keys && Sum(own, Up(g, roots)) <= Sum(pack, roots)
    decreases below, roots
  {
    UpFacts(g, roots, own.Keys);
    if roots == {} {
      ReachLeast(g, {}, {}, {});
    } else {
      var q :| q in roots;
      forall x | x in Succ(g, q) ensures rank(x) < rank(q) {}
      PackageCoversAncestors(own, pack, g, Succ(g, q), rank, bound, rank(q));
      PackageCoversAncestors(own, pack, g, roots - {q}, rank, bound, below);
      UpSum(own, g, roots, q);
      SumPull(pack, roots, q);
    }
  }

  /** No ancestor of `roots` is reached twice: all families involved are disjoint. */
  ghost predicate SinglePaths(g: Edges, roots: set<Id>) {
    && (forall a, b :: a in roots && b in roots && a != b ==> Up(g, {a}) !! Up(g, {b}))
    && (forall x, a, b :: x in Up(g, roots) && a in Succ(g, x) && b in Succ(g, x) && a != b ==> Up(g, {a}) !! Up(g, {b}))
  }

  lemma SinglePathsSplit(g: Edges, roots: set<Id>, q: Id)
    requires SinglePaths(g, roots) && q in roots && Acyclic(g)
    ensures SinglePaths(g, roots - {q}) && SinglePaths(g, Succ(g, q))
    ensures Up(g, roots - {q}) !! Up(g, {q})
    ensures q !in Up(g, Succ(g, q))
  {
    ReachIrreflexive(g, q);
    UpSplit(g, roots, q);
    DisjointUnion(g, roots - {q}, Up(g, {q}));
  }

  /** Families disjoint from `s` one by one are disjoint from `s` together. */
  lemma {:induction false} DisjointUnion(g: Edges, roots: set<Id>, s: set<Id>)
    requires forall a :: a in roots ==> Up(g, {a}) !! s
    ensures Up(g, roots) !! s
    decreases roots
  {
    if roots == {} {
      ReachLeast(g, {}, {}, {});
    } else {
      var a :| a in roots;
      UpSplit(g, roots, a);
      DisjointUnion(g, roots - {a}, s);
    }
  }

  /** Exact sums over disjoint families add up. */
  lemma PackagesAdd(own: map<Id, nat>, pack: map<Id, nat>, g: Edges, roots: set<Id>, q: Id)
    requires Aggregated(own, pack, g) && roots <= own.Keys && q in roots
    requires Up(g, roots - {q}) !! Up(g, {q}) && q !in Up(g, Succ(g, q))
    requires Up(g, roots - {q}) <= own.Keys && Sum(own, Up(g, roots - {q})) == Sum(pack, roots - {q})
    requires Up(g, Succ(g, q)) <= own.Keys && Sum(own, Up(g, Succ(g, q))) == Sum(pack, Succ(g, q))
    ensures Up(g, roots) <= own.Keys && Sum(own, Up(g, roots)) == Sum(pack, roots)
  {
    UpSum(own, g, roots, q);
    SumPull(pack, roots, q);
  }

  /** When every ancestor is reached along one path only, package values are exact. */
  lemma {:induction false} PackageExactOnTrees(own: map<Id, nat>, pack: map<Id, nat>, g: Edges, roots: set<Id>,
                                               rank: Id -> nat, bound: nat, below: nat)
    requires Aggregated(own, pack, g) && Ranked(g, rank, bound) && roots <= own.Keys
    requires forall q :: q in roots ==> rank(q) < below
    requires SinglePaths(g, roots)
    ensures Up(g, roots) <= own.Keys && Sum(own, Up(g, roots)) == Sum(pack, roots)
    decreases below, roots
  {
    UpFacts(g, roots, own.Keys);
    if roots == {} {
      ReachLeast(g, {}, {}, {});
    } else {
      var q :| q in roots;
      forall x | x in Succ(g, q) ensures rank(x) < rank(q) {}
      SinglePathsSplit(g, roots, q);
      PackageExactOnTrees(own, pack, g, Succ(g, q), rank, bound, rank(q));
      PackageExactOnTrees(own, pack, g, roots - {q}, rank, bound, below);
      PackagesAdd(own, pack, g, roots, q);
    }
  }

  /** Every item's package value is at least the sum over itself and its ancestors; exact on trees. */
  lemma PackageBounds(own: map<Id, nat>, pack: map<Id, nat>, g: Edges, b: Id)
    requires Aggregated(own, pack, g) && Acyclic(g) && b in own
    ensures Up(g, {b}) <= own.Keys && Sum(own, Up(g, {b})) <= pack[b]
    ensures SinglePaths(g, {b}) ==> Sum(own, Up(g, {b})) == pack[b]
  {
    var rank: Id -> nat, bound: nat :| Ranked(g, rank, bound);
    PackageCoversAncestors(own, pack, g, {b}, rank, bound, rank(b) + 1);
    SumPull(pack, {b}, b);
    if SinglePaths(g, {b}) {
      PackageExactOnTrees(own, pack, g, {b}, rank, bound, rank(b) + 1);
    }
  }

  lemma JoinAggregated(own: map<Id, nat>, pack: map<Id, nat>, g: Edges, id: Id, parents: set<Id>, v: nat, w: nat)
    requires Aggregated(own, pack, g) && id !in own && parents <= own.Keys && Succ(g, id) == {}
    requires w == v + Sum(pack, parents)
    ensures Aggregated(own[id := v], pack[id := w], JoinParents(g, parents, id))
  {
    var o, k, h := own[id := v], pack[id := w], JoinParents(g, parents, id);
    JoinedSucc(g, parents, id);
    forall b | b in o ensures Succ(h, b) <= o.Keys && k[b] == o[b] + Sum(k, Succ(h, b)) {
      assert Succ(h, b) <= pack.Keys;
      SumAgree(pack, k, Succ(h, b));
    }
  }

  lemma DropAggregated(own: map<Id, nat>, pack: map<Id, nat>, g: Edges, gone: set<Id>, h: Edges)
    requires Aggregated(own, pack, g) && ParentClosed(h, own.Keys - gone)
    requires forall b :: b in own.Keys - gone ==> Succ(h, b) == Succ(g, b)
    ensures Aggregated(own - gone, pack - gone, h)
  {
    forall b | b in own - gone ensures (pack - gone)[b] == (own - gone)[b] + Sum(pack - gone, Succ(h, b)) {
      SumAgree(pack, pack - gone, Succ(h, b));
    }
  }
}
