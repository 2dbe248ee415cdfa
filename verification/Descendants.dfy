/** Walking down `dependents`: the child-to-parent map and the subtree cost (src/mempool/lifecycle.rs). */
module Descendants {
  import opened Prelude
  import opened Items
  import opened Sums
  import opened Graph
  import opened PoolState
  import opened PoolInvariants
  import opened Cascades

  // ── A measure for a walk that may visit a node once per path ──

  ghost function SumSeq(w: map<Id, nat>, xs: seq<Id>): nat
    requires Elems(xs) <= w.Keys
  {
    if xs == [] then 0 else
      assert xs[|xs| - 1] in Elems(xs);
      PopElems(xs);
      SumSeq(w, xs[..|xs| - 1]) + w[xs[|xs| - 1]]
  }

  lemma {:induction false} SumSeqConcat(w: map<Id, nat>, xs: seq<Id>, ys: seq<Id>)
    requires Elems(xs) <= w.Keys && Elems(ys) <= w.Keys
    ensures Elems(xs + ys) <= w.Keys && SumSeq(w, xs + ys) == SumSeq(w, xs) + SumSeq(w, ys)
  {
    ElemsConcat(xs, ys);
    if ys == [] {
      assert xs + ys == xs;
    } else {
      PopElems(ys);
      SumSeqConcat(w, xs, ys[..|ys| - 1]);
      assert (xs + ys)[..|xs + ys| - 1] == xs + ys[..|ys| - 1];
    }
  }

  lemma {:induction false} SumSeqElems(w: map<Id, nat>, xs: seq<Id>)
    requires Elems(xs) <= w.Keys && NoDup(xs)
    ensures SumSeq(w, xs) == Sum(w, Elems(xs))
  {
    if xs == [] {
      ElemsEmpty(xs);
    } else {
      PopElems(xs);
      SumSeqElems(w, xs[..|xs| - 1]);
      SumPush(w, Elems(xs[..|xs| - 1]), xs[|xs| - 1]);
    }
  }

  /** Each node weighs one more than its children together. */
  ghost predicate Weighs(g: Edges, w: map<Id, nat>) {
    forall x :: x in w ==> Succ(g, x) <= w.Keys && w[x] == 1 + Sum(w, Succ(g, x))
  }

  /** Ranks rise along `g`: weights exist, built from the top rank down. */
  lemma {:induction false} WeightsFrom(g: Edges, universe: set<Id>, rank: Id -> nat, bound: nat, level: nat)
    returns (w: map<Id, nat>)
    requires forall x :: rank(x) <= bound
    requires forall x, y :: x in universe && y in Succ(g, x) ==> y in universe && rank(x) < rank(y)
    requires level <= bound + 1
    ensures w.Keys == (set x | x in universe && rank(x) >= level) && Weighs(g, w)
    decreases bound + 1 - level
  {
    if level == bound + 1 {
      w := map[];
    } else {
      var above := WeightsFrom(g, universe, rank, bound, level + 1);
      forall x | x in universe && rank(x) == level ensures Succ(g, x) <= above.Keys {}
      w := map x | x in universe && rank(x) >= level :: if x in above then above[x] else 1 + Sum(above, Succ(g, x));
      forall x | x in w ensures Succ(g, x) <= w.Keys && w[x] == 1 + Sum(w, Succ(g, x)) {
        assert Succ(g, x) <= above.Keys;
        SumAgree(above, w, Succ(g, x));
      }
    }
  }

  lemma WeightsExist(p: Pool, root: Id) returns (w: map<Id, nat>)
    requires Edged(p) && Acyclic(p.dependencies)
    ensures Weighs(p.dependents, w) && root in w
  {
    var rank: Id -> nat, bound: nat :| Ranked(p.dependencies, rank, bound);
    var universe := Nodes(p.dependents) + {root};
    forall x, y | x in universe && y in Succ(p.dependents, x) ensures y in universe && rank(x) < rank(y) {
      SuccInNodes(p.dependents, x);
      ChildRank(p, rank, bound, x);
    }
    w := WeightsFrom(p.dependents, universe, rank, bound, 0);
  }

  // ── The child-to-parent map ──

  /** Keys are exactly the proper descendants, each mapped to a direct parent inside the subtree. */
  ghost predicate IsParentMap(g: Edges, root: Id, m: map<Id, Id>) {
    && m.Keys == Reach(g, {}, Succ(g, root))
    && forall c :: c in m ==> c in Succ(g, m[c]) && m[c] in {root} + m.Keys
  }

  ghost predicate Mapping(g: Edges, root: Id, m: map<Id, Id>, stack: seq<Id>) {
    && m.Keys <= Reach(g, {}, Succ(g, root))
    && (forall c :: c in m ==> c in Succ(g, m[c]) && m[c] in {root} + m.Keys)
    && Elems(stack) <= {root} + m.Keys
    && (forall x :: x in {root} + m.Keys ==> x in Elems(stack) || Succ(g, x) <= m.Keys)
  }

  /** `entry(child).or_insert(parent)` for each child: the first parent wins. */
  function Adopt(m: map<Id, Id>, children: seq<Id>, parent: Id): (r: map<Id, Id>)
    ensures r.Keys == m.Keys + Elems(children)
    ensures forall c :: c in r ==> r[c] == if c in m then m[c] else parent
  {
    if children == [] then ElemsEmpty(children); m else
      PopElems(children);
      var r := Adopt(m, children[..|children| - 1], parent);
      var c := children[|children| - 1];
      if c in r then r else r[c := parent]
  }

  lemma MappingStep(g: Edges, root: Id, m: map<Id, Id>, stack: seq<Id>, next: seq<Id>)
    requires Mapping(g, root, m, stack) && stack != []
    requires Elems(next) == Succ(g, stack[|stack| - 1])
    ensures Mapping(g, root, Adopt(m, next, stack[|stack| - 1]), stack[..|stack| - 1] + next)
  {
    var x := stack[|stack| - 1];
    PopElems(stack);
    ElemsConcat(stack[..|stack| - 1], next);
    MappingGrows(g, root, m, stack, Adopt(m, next, x), x, stack[..|stack| - 1] + next);
  }

  lemma MappingGrows(g: Edges, root: Id, m: map<Id, Id>, stack: seq<Id>, r: map<Id, Id>, x: Id, rest: seq<Id>)
    requires Mapping(g, root, m, stack) && x in {root} + m.Keys
    requires r.Keys == m.Keys + Succ(g, x) && forall c :: c in r ==> r[c] == if c in m then m[c] else x
    requires Elems(stack) <= Elems(rest) + {x} && Elems(rest) <= Elems(stack) + Succ(g, x) && Succ(g, x) <= Elems(rest)
    ensures Mapping(g, root, r, rest)
  {
    ReachCovers(g, {}, Succ(g, root));
  }

  lemma MappingDone(g: Edges, root: Id, m: map<Id, Id>)
    requires Mapping(g, root, m, [])
    ensures IsParentMap(g, root, m)
  {
    ElemsEmpty<Id>([]);
    ReachLeast(g, {}, Succ(g, root), m.Keys);
  }

  /** Depth-first without a visited set: the walk ends because the graph is acyclic. */
  method CollectDescendantsParentMap(ghost p: Pool, dependents: Edges, root: Id) returns (m: map<Id, Id>)
    requires Edged(p) && Acyclic(p.dependencies) && dependents == p.dependents
    ensures IsParentMap(dependents, root, m)
  {
    ghost var w := WeightsExist(p, root);
    m := map[];
    var stack := [root];
    ElemsAppend<Id>([], root);
    assert [] + [root] == [root];
    while stack != []
      invariant Mapping(dependents, root, m, stack)
      invariant Elems(stack) <= w.Keys
      decreases SumSeq(w, stack)
    {
      var parent := stack[|stack| - 1];
      var children := Enumerate(Succ(dependents, parent));
      PopElems(stack);
      MappingStep(dependents, root, m, stack, children);
      SumSeqElems(w, children);
      SumSeqConcat(w, stack[..|stack| - 1], children);
      m := Adopt(m, children, parent);
      stack := stack[..|stack| - 1] + children;
    }
    MappingDone(dependents, root, m);
  }

  // ── The cost of a subtree ──

  /** Adds up the active part of a subtree, each item once. */
  method SubtreeCost(ghost p: Pool, items: map<Id, Item>, dependents: Edges, root: Id) returns (cost: U64)
    requires items == p.items && dependents == p.dependents && Counted(p)
    ensures cost == Sum(Costs(p.items), Subtree(p, root))
  {
    var stack := [root];
    ElemsAppend<Id>([], root);
    assert [] + [root] == [root];
    var visited: set<Id> := {};
    cost := 0;
    ExploreStart(dependents, {}, {root}, stack);
    while stack != []
      invariant Exploring(dependents, {}, {root}, visited, stack)
      invariant cost == Sum(Costs(items), visited * items.Keys)
      decreases {root} + Nodes(dependents) - visited, |stack|
    {
      var id := stack[|stack| - 1];
      if id in visited {
        ExploreSkip(dependents, {}, {root}, visited, stack);
        stack := stack[..|stack| - 1];
      } else {
        var children := Enumerate(Succ(dependents, id));
        ExploreVisit(dependents, {}, {root}, visited, stack, children);
        CostStep(p, visited, id);
        visited := visited + {id};
        if id in items { cost := SatAdd(cost, items[id].virtualCost); }
        stack := stack[..|stack| - 1] + children;
      }
    }
    ExploreDone(dependents, {}, {root}, visited);
  }

  lemma CostStep(p: Pool, visited: set<Id>, id: Id)
    requires Counted(p) && id !in visited
    ensures var before, after := Sum(Costs(p.items), visited * p.items.Keys), Sum(Costs(p.items), (visited + {id}) * p.items.Keys);
      after == if id in p.items then SatAdd(before, p.items[id].virtualCost) else before
  {
    var a, b := visited * p.items.Keys, (visited + {id}) * p.items.Keys;
    if id in p.items {
      assert b == a + {id};
      SumPush(Costs(p.items), a, id);
      SumMono(Costs(p.items), b, Costs(p.items).Keys);
    } else {
      assert b == a;
    }
  }
}
