/** Topological ordering of a selected block (src/selection/ordering.rs). */
module Ordering {
  import opened Prelude
  import opened Items
  import opened Graph
  import opened Sorting
  import opened Strategies
  import opened Packages
  import opened PoolState

  /** Every memoised layer is 0 without selected parents, else one more than the highest of theirs. */
  ghost predicate Layered(deps: Edges, sel: set<Id>, memo: map<Id, nat>) {
    && memo.Keys <= sel
    && forall x :: x in memo ==> Succ(deps, x) * sel <= memo.Keys && memo[x] == DepthOver(memo, Succ(deps, x) * sel)
  }

  /** Growing a memo leaves the layers already in it valid. */
  lemma LayeredExtend(deps: Edges, sel: set<Id>, memo: map<Id, nat>, id: Id)
    requires Layered(deps, sel, memo) && id in sel && Succ(deps, id) * sel <= memo.Keys
    ensures Layered(deps, sel, memo[id := DepthOver(memo, Succ(deps, id) * sel)])
    ensures Extends(memo, memo[id := DepthOver(memo, Succ(deps, id) * sel)])
  {
    if id in memo { assert memo[id := DepthOver(memo, Succ(deps, id) * sel)] == memo; }
    var m := memo[id := DepthOver(memo, Succ(deps, id) * sel)];
    forall x | x in m ensures Succ(deps, x) * sel <= m.Keys && m[x] == DepthOver(m, Succ(deps, x) * sel) {
      assert Depths(m, Succ(deps, x) * sel) == Depths(memo, Succ(deps, x) * sel);
    }
  }

  ghost predicate Extends(small: map<Id, nat>, big: map<Id, nat>) {
    small.Keys <= big.Keys && forall x :: x in small ==> big[x] == small[x]
  }

  method ComputeLayer(id: Id, deps: Edges, sel: set<Id>, before: map<Id, nat>, ghost rank: Id -> nat, ghost bound: nat)
    returns (layer: nat, memo: map<Id, nat>)
    requires Ranked(deps, rank, bound) && Layered(deps, sel, before) && id in sel
    ensures Layered(deps, sel, memo) && Extends(before, memo)
    ensures id in memo && layer == memo[id]
    decreases rank(id), 1
  {
    if id in before { return before[id], before; }
    var parents := Enumerate(Succ(deps, id) * sel);
    var highest;
    highest, memo := HighestParent(id, parents, deps, sel, before, rank, bound);
    layer := if parents == [] then 0 else highest + 1;
    ElemsEmpty(parents);
    assert layer == DepthOver(memo, Succ(deps, id) * sel);
    LayeredExtend(deps, sel, memo, id);
    memo := memo[id := layer];
  }

  /** Layers of all parents, and the highest of them. */
  method HighestParent(id: Id, parents: seq<Id>, deps: Edges, sel: set<Id>, before: map<Id, nat>,
                       ghost rank: Id -> nat, ghost bound: nat)
    returns (highest: nat, memo: map<Id, nat>)
    requires Ranked(deps, rank, bound) && Layered(deps, sel, before)
    requires Elems(parents) == Succ(deps, id) * sel
    ensures Layered(deps, sel, memo) && Extends(before, memo)
    ensures Elems(parents) <= memo.Keys && highest == MaxOf(Depths(memo, Elems(parents)))
    decreases rank(id), 0
  {
    highest, memo := 0, before;
    ghost var done: set<Id> := {};
    ElemsEmpty(parents[..0]);
    assert Depths(memo, {}) == {};
    for i := 0 to |parents|
      invariant Layered(deps, sel, memo) && Extends(before, memo)
      invariant done == Elems(parents[..i]) && done <= memo.Keys && highest == MaxOf(Depths(memo, done))
    {
      PrefixElems(parents, i);
      var q := parents[i];
      var l, next := ComputeLayer(q, deps, sel, memo, rank, bound);
      MaxStep(memo, next, done, q);
      if highest < l { highest := l; }
      memo, done := next, done + {q};
    }
    WholePrefix(parents);
  }

  lemma MaxStep(memo: map<Id, nat>, next: map<Id, nat>, done: set<Id>, q: Id)
    requires Extends(memo, next) && done <= memo.Keys && q in next
    ensures var highest := MaxOf(Depths(memo, done));
      MaxOf(Depths(next, done + {q})) == if highest < next[q] then next[q] else highest
  {
    var highest := MaxOf(Depths(memo, done));
    assert Depths(next, done + {q}) == Depths(memo, done) + {next[q]};
    MaxUnique(Depths(next, done + {q}), if highest < next[q] then next[q] else highest);
  }

  // ── The order ──

  ghost function OrderKeys(items: map<Id, Item>, layer: map<Id, nat>): map<Id, Key> {
    map b | b in items && b in layer :: [layer[b], Desc(items[b].fpc), items[b].heightAdded, items[b].id]
  }

  /** `xs` lists the selection by layer, then rate, then age, then id. */
  ghost predicate Topological(items: map<Id, Item>, deps: Edges, sel: set<Id>, layer: map<Id, nat>, xs: seq<Id>) {
    && Layered(deps, sel, layer) && layer.Keys == sel
    && NoDup(xs) && Elems(xs) == sel
    && SortedBy(OrderKeys(items, layer), xs)
  }

  ghost predicate IsTopological(items: map<Id, Item>, deps: Edges, sel: set<Id>, xs: seq<Id>) {
    exists layer :: Topological(items, deps, sel, layer, xs)
  }

  method TopologicalOrder(items: map<Id, Item>, deps: Edges, sel: set<Id>)
    returns (xs: seq<Id>, ghost layer: map<Id, nat>)
    requires Acyclic(deps) && sel <= items.Keys
    ensures Topological(items, deps, sel, layer, xs)
    ensures IsTopological(items, deps, sel, xs)
  {
    ghost var rank: Id -> nat, bound: nat :| Ranked(deps, rank, bound);
    var memo: map<Id, nat> := map[];
    var ids := Enumerate(sel);
    ElemsEmpty(ids[..0]);
    for i := 0 to |ids|
      invariant Layered(deps, sel, memo) && Elems(ids[..i]) <= memo.Keys
    {
      assert ids[i] in Elems(ids);
      assert ids[..i + 1] == ids[..i] + [ids[i]];
      ElemsAppend(ids[..i], ids[i]);
      var _, next := ComputeLayer(ids[i], deps, sel, memo, rank, bound);
      memo := next;
    }
    assert ids[..|ids|] == ids;
    layer := memo;
    var keys: map<Id, Key> :=
      map b | b in items && b in memo :: [memo[b], Desc(items[b].fpc), items[b].heightAdded, items[b].id];
    assert keys == OrderKeys(items, memo);
    xs := SortBy(keys, ids);
    assert Topological(items, deps, sel, layer, xs);
  }

  /** A selected parent sits in a lower layer. */
  lemma ParentBelow(deps: Edges, sel: set<Id>, layer: map<Id, nat>, b: Id, q: Id)
    requires Layered(deps, sel, layer) && b in layer && q in Succ(deps, b) && q in sel
    ensures q in layer && layer[q] < layer[b]
  {
    assert q in Succ(deps, b) * sel;
    assert layer[q] in Depths(layer, Succ(deps, b) * sel);
  }

  /** Every selected parent comes strictly before its child. */
  lemma ParentsFirst(items: map<Id, Item>, deps: Edges, sel: set<Id>, layer: map<Id, nat>, xs: seq<Id>, i: nat, q: Id)
    requires Topological(items, deps, sel, layer, xs) && sel <= items.Keys
    requires i < |xs| && q in Succ(deps, xs[i]) && q in sel
    ensures q in xs[..i]
  {
    assert xs[i] in Elems(xs) && q in Elems(xs);
    ParentBelow(deps, sel, layer, xs[i], q);
    var j :| 0 <= j < |xs| && xs[j] == q;
    assert Less(OrderKeys(items, layer)[q], OrderKeys(items, layer)[xs[i]]);
  }

  ghost function Within(deps: Edges, sel: set<Id>): Edges { map x | x in sel :: Succ(deps, x) * sel }

  /** A layer is the length of the longest way up through the selection. */
  lemma LayerIsLongestPath(deps: Edges, sel: set<Id>, layer: map<Id, nat>, b: Id)
    requires Layered(deps, sel, layer) && layer.Keys == sel && b in sel
    ensures forall xs :: Walk(deps, xs) && Elems(xs) <= sel && xs[0] == b ==> |xs| - 1 <= layer[b]
    ensures exists xs :: Walk(deps, xs) && Elems(xs) <= sel && xs[0] == b && |xs| - 1 == layer[b]
  {
    var g := Within(deps, sel);
    assert DepthsExact(layer, g) && ParentClosed(g, layer.Keys);
    forall xs: seq<Id> | Walk(deps, xs) && Elems(xs) <= sel && xs[0] == b ensures |xs| - 1 <= layer[b] {
      assert forall i :: 0 <= i < |xs| ==> xs[i] in Elems(xs);
      DepthBoundsWalks(layer, g, xs);
    }
    var xs := DepthIsReached(layer, g, b);
    forall i | 0 <= i < |xs| ensures xs[i] in sel {
      if i > 0 {
        var k: nat :| k + 1 == i;
        assert xs[k + 1] in Succ(g, xs[k]);
      }
    }
    assert Walk(deps, xs);
  }

  /** Lower layer; then higher own rate, earlier arrival, smaller id. */
  lemma TopologicalMeans(items: map<Id, Item>, deps: Edges, sel: set<Id>, layer: map<Id, nat>, xs: seq<Id>, i: nat, j: nat)
    requires Topological(items, deps, sel, layer, xs) && sel <= items.Keys && i < j < |xs| && forall b :: b in items ==> items[b].id == b
    ensures xs[i] in items && xs[j] in items && xs[i] in layer && xs[j] in layer
    ensures var a, b, m, n := items[xs[i]], items[xs[j]], layer[xs[i]], layer[xs[j]];
      || m < n
      || (m == n && a.fpc > b.fpc)
      || (m == n && a.fpc == b.fpc && a.heightAdded < b.heightAdded)
      || (m == n && a.fpc == b.fpc && a.heightAdded == b.heightAdded && a.id < b.id)
  {
    assert xs[i] in Elems(xs) && xs[j] in Elems(xs);
    LessFour(OrderKeys(items, layer)[xs[j]], OrderKeys(items, layer)[xs[i]]);
  }

  // ── There is only one such order ──

  lemma {:induction false} LayersAgree(deps: Edges, sel: set<Id>, a: map<Id, nat>, b: map<Id, nat>,
                                       rank: Id -> nat, bound: nat, x: Id)
    requires Ranked(deps, rank, bound) && Layered(deps, sel, a) && Layered(deps, sel, b)
    requires x in a && x in b
    ensures a[x] == b[x]
    decreases rank(x)
  {
    forall q | q in Succ(deps, x) * sel ensures a[q] == b[q] {
      LayersAgree(deps, sel, a, b, rank, bound, q);
    }
    assert Depths(a, Succ(deps, x) * sel) == Depths(b, Succ(deps, x) * sel);
  }

  lemma OneTopological(items: map<Id, Item>, deps: Edges, sel: set<Id>,
                       la: map<Id, nat>, xs: seq<Id>, lb: map<Id, nat>, ys: seq<Id>)
    requires Acyclic(deps) && sel <= items.Keys && forall b :: b in items ==> items[b].id == b
    requires Topological(items, deps, sel, la, xs) && Topological(items, deps, sel, lb, ys)
    ensures xs == ys
  {
    var rank: Id -> nat, bound: nat :| Ranked(deps, rank, bound);
    forall x | x in sel ensures la[x] == lb[x] { LayersAgree(deps, sel, la, lb, rank, bound, x); }
    assert la == lb;
    var keys := OrderKeys(items, la);
    forall a, b | a in Elems(xs) && b in Elems(xs) && keys[a] == keys[b] ensures a == b {
      assert keys[a][3] == keys[b][3];
    }
    SortedUnique(keys, xs, ys);
  }
}
