/** The active pool and its in-place operations (src/pools/active.rs). */
module ActivePools {
  import opened Prelude
  import opened Items
  import opened Queues
  import opened Graph
  import opened PoolState
  import opened PoolInvariants
  import opened Cascades
  import opened Sorting
  import opened Evictions

  class ActivePool {
    var items: map<Id, Item>
    var coinIndex: map<CoinId, Id>
    var mempoolCoins: map<CoinId, Id>
    var dependencies: Edges
    var dependents: Edges
    var dedup: Dedup
    var singletonSpends: map<Id, seq<Id>>
    var totalCost: U64
    var totalFees: U64
    var totalSpends: U64
    ghost var order: seq<Id>

    ghost function Model(): Pool
      reads this
    {
      Pool(items, coinIndex, mempoolCoins, dependencies, dependents, dedup,
           singletonSpends, totalCost, totalFees, totalSpends, order)
    }

    constructor ()
      ensures Model() == EMPTY
    {
      items, coinIndex, mempoolCoins := map[], map[], map[];
      dependencies, dependents := map[], map[];
      dedup, singletonSpends := Dedup(map[], map[]), map[];
      totalCost, totalFees, totalSpends := 0, 0, 0;
      order := [];
    }

    method Clear()
      modifies this
      ensures Model() == EMPTY
    {
      items, coinIndex, mempoolCoins := map[], map[], map[];
      dependencies, dependents := map[], map[];
      dedup, singletonSpends := Dedup(map[], map[]), map[];
      totalCost, totalFees, totalSpends := 0, 0, 0;
      order := [];
    }

    method Insert(item: Item)
      modifies this
      ensures Model() == PoolState.Insert(old(Model()), item)
    {
      RegisterCoins(item);
      RegisterQueues(item);
      RegisterEdges(item);
      totalCost := SatAdd(totalCost, item.virtualCost);
      totalFees := SatAdd(totalFees, item.fee);
      totalSpends := SatAdd(totalSpends, item.numSpends);
      items := items[item.id := item];
      order := order + [item.id];
    }

    method RegisterCoins(item: Item)
      modifies this
      ensures Model() == JoinCoins(old(Model()), item)
    {
      coinIndex := IndexCoins(coinIndex, item.removals, item.id);
      mempoolCoins := IndexCoins(mempoolCoins, item.additions, item.id);
    }

    method RegisterQueues(item: Item)
      modifies this
      ensures Model() == JoinQueues(old(Model()), item)
    {
      dedup := JoinDedup(dedup, item.dedupKeys, item.id);
      singletonSpends := ChainJoin(singletonSpends, item.launcher, item.id);
    }

    method RegisterEdges(item: Item)
      modifies this
      ensures Model() == JoinEdges(old(Model()), item)
    {
      dependencies, dependents := JoinGraph(dependencies, dependents, item.dependsOn, item.id);
    }

    method Remove(id: Id) returns (removed: Option<Item>)
      modifies this
      ensures Model() == PoolState.Remove(old(Model()), id)
      ensures removed == if id in old(items) then Some(old(items)[id]) else None
    {
      if id !in items { return None; }
      var item := items[id];
      UnregisterCoins(item);
      UnregisterQueues(item, id);
      UnregisterEdges(id);
      totalCost := SatSub(totalCost, item.virtualCost);
      totalFees := SatSub(totalFees, item.fee);
      totalSpends := SatSub(totalSpends, item.numSpends);
      order := Without(order, id);
      return Some(item);
    }

    method UnregisterCoins(item: Item)
      modifies this
      ensures Model() == LeaveCoins(old(Model()), item)
    {
      coinIndex := UnindexCoins(coinIndex, item.removals);
      mempoolCoins := UnindexCoins(mempoolCoins, item.additions);
    }

    method UnregisterQueues(item: Item, id: Id)
      modifies this
      ensures Model() == LeaveQueues(old(Model()), item, id)
    {
      dedup := LeaveDedup(dedup, item.dedupKeys, id);
      singletonSpends := ChainLeave(singletonSpends, item.launcher, id);
    }

    method UnregisterEdges(id: Id)
      modifies this
      ensures Model() == LeaveEdges(old(Model()), id)
    {
      items, dependencies, dependents := LeaveGraph(items - {id}, dependencies, dependents, id);
    }

    /** Evicts `id` and everything depending on it; returns the evicted ids in order. */
    method CascadeEvict(id: Id) returns (evicted: seq<Id>)
      requires Sound(Model())
      modifies this
      ensures Model() == RemoveSeq(old(Model()), evicted)
      ensures CascadeOf(old(Model()), id, evicted)
    {
      ghost var rank: Id -> nat, bound: nat :| Ranked(dependencies, rank, bound);
      evicted := CascadeEvictInner(id, rank, bound);
    }

    /** The recursion; a ranking of the graph shows that it ends. */
    method CascadeEvictInner(id: Id, ghost rank: Id -> nat, ghost bound: nat) returns (evicted: seq<Id>)
      requires Edged(Model()) && Ranked(dependencies, rank, bound)
      modifies this
      ensures Model() == RemoveSeq(old(Model()), evicted)
      ensures CascadeOf(old(Model()), id, evicted)
      decreases bound - rank(id), 2
    {
      ghost var p := Model();
      var children := Enumerate(Succ(dependents, id));
      evicted := EvictChildren(id, children, rank, bound);
      evicted := EvictParent(p, id, evicted);
    }

    method EvictChildren(id: Id, children: seq<Id>, ghost rank: Id -> nat, ghost bound: nat) returns (evicted: seq<Id>)
      requires Edged(Model()) && Ranked(dependencies, rank, bound)
      requires Elems(children) <= Succ(dependents, id)
      modifies this
      ensures Model() == RemoveSeq(old(Model()), evicted)
      ensures Cascading(old(Model()), id, evicted) && Elems(children) <= Elems(evicted)
      decreases bound - rank(id), 1
    {
      ghost var p := Model();
      evicted := [];
      for i := 0 to |children|
        invariant Model() == RemoveSeq(p, evicted)
        invariant Cascading(p, id, evicted)
        invariant Elems(children[..i]) <= Elems(evicted)
      {
        assert children[i] in Elems(children);
        ElemsAppend(children[..i], children[i]);
        assert children[..i + 1] == children[..i] + [children[i]];
        evicted := EvictChild(p, id, evicted, children[i], rank, bound);
      }
      assert children[..|children|] == children;
    }

    /** One round of the recursion: the whole subtree below one child. */
    method EvictChild(ghost p: Pool, id: Id, evicted: seq<Id>, child: Id, ghost rank: Id -> nat, ghost bound: nat)
      returns (r: seq<Id>)
      requires Edged(p) && Ranked(p.dependencies, rank, bound) && child in Succ(p.dependents, id)
      requires Model() == RemoveSeq(p, evicted) && Cascading(p, id, evicted)
      modifies this
      ensures Model() == RemoveSeq(p, r) && Cascading(p, id, r)
      ensures Elems(evicted) + {child} <= Elems(r)
      decreases bound - rank(id), 0
    {
      ChildRank(p, rank, bound, id);
      CascadeState(p, evicted, rank, bound);
      var more := CascadeEvictInner(child, rank, bound);
      CascadeAppend(p, id, evicted, child, more);
      RemoveSeqConcat(p, evicted, more);
      ElemsConcat(evicted, more);
      r := evicted + more;
    }

    /** The last step of the recursion: the children are gone, now the node itself. */
    method EvictParent(ghost p: Pool, id: Id, below: seq<Id>) returns (evicted: seq<Id>)
      requires Model() == RemoveSeq(p, below)
      requires Edged(p) && Acyclic(p.dependencies) && Cascading(p, id, below) && Succ(p.dependents, id) <= Elems(below)
      modifies this
      ensures Model() == RemoveSeq(p, evicted)
      ensures CascadeOf(p, id, evicted)
    {
      CascadeFinish(p, id, below);
      RemoveSeqItems(p, below);
      RemoveSeqSnoc(p, below, id);
      var gone := Remove(id);
      evicted := if gone.Some? then below + [id] else below;
    }

    /** The ids in `who`, lowest descendant score first; ties in any order. */
    method ByScore(who: set<Id>) returns (sorted: seq<Id>)
      requires who <= items.Keys
      ensures NoDup(sorted) && Elems(sorted) == who && SortedBy(ScoreKeys(items), sorted)
    {
      var keys: map<Id, Key> := map b | b in items :: [items[b].descendantScore];
      assert keys == ScoreKeys(items);
      var listed := Enumerate(who);
      sorted := SortBy(keys, listed);
    }

    /** One pass of `evict_for`: evict in the given order until the newcomer fits or meets a better item. */
    method Squeeze(sorted: seq<Id>, newItem: Item, maxTotalCost: U64) returns (ok: bool, ghost k: nat)
      requires NoDup(sorted) && Elems(sorted) <= items.Keys && SortedBy(ScoreKeys(items), sorted)
      modifies this
      ensures k <= |sorted| && Model() == RemoveSeq(old(Model()), sorted[..k])
      ensures Squeezed(old(Model()), sorted, k, newItem.fpc, newItem.virtualCost, maxTotalCost, ok)
    {
      ghost var p := Model();
      var snapshot: map<Id, U128> := map b | b in items :: items[b].descendantScore;
      k := 0;
      for i := 0 to |sorted|
        invariant k == i && Model() == RemoveSeq(p, sorted[..i])
        invariant Squeezing(p, sorted, i, newItem.fpc, newItem.virtualCost, maxTotalCost)
      {
        if SatAdd(totalCost, newItem.virtualCost) <= maxTotalCost {
          SqueezeEnds(p, sorted, i, newItem.fpc, newItem.virtualCost, maxTotalCost);
          return true, i;
        }
        if newItem.fpc <= snapshot[sorted[i]] {
          SqueezeEnds(p, sorted, i, newItem.fpc, newItem.virtualCost, maxTotalCost);
          return false, i;
        }
        SqueezeOne(p, sorted, i, newItem.fpc, newItem.virtualCost, maxTotalCost);
        var _ := Remove(sorted[i]);
        k := i + 1;
      }
      SqueezeEnds(p, sorted, |sorted|, newItem.fpc, newItem.virtualCost, maxTotalCost);
      return true, |sorted|;
    }

    /** One whole pass: over the expiry-protected items, or over all the others. */
    method EvictClass(shielded: bool, newItem: Item, maxTotalCost: U64, height: U64, protection: U64)
      returns (ok: bool, ghost cands: seq<Id>, ghost k: nat)
      modifies this
      ensures var all := Shielded(old(items), height, protection);
        Elems(cands) == if shielded then all else old(items).Keys - all
      ensures k <= |cands| && Model() == RemoveSeq(old(Model()), cands[..k])
      ensures Squeezed(old(Model()), cands, k, newItem.fpc, newItem.virtualCost, maxTotalCost, ok)
    {
      var who := set b | b in items && items[b].ExpiryProtected(height, protection) == shielded;
      var sorted := ByScore(who);
      cands := sorted;
      ok, k := Squeeze(sorted, newItem, maxTotalCost);
    }

    /** Makes room for `newItem`; on refusal the items displaced so far stay displaced. */
    method EvictFor(newItem: Item, maxTotalCost: U64, height: U64, protection: U64) returns (ok: bool, ghost w: Eviction)
      modifies this
      ensures EvictedFor(old(Model()), newItem, maxTotalCost, height, protection, w, ok)
      ensures Model() == RemoveSeq(old(Model()), Evicted(w))
    {
      w := Eviction([], 0, true, [], 0, true);
      if newItem.virtualCost > maxTotalCost {
        return false, w;
      }
      ghost var p := Model();
      ghost var cands, k;
      ok, cands, k := EvictClass(false, newItem, maxTotalCost, height, protection);
      w := Eviction(cands, k, ok, [], 0, true);
      assert Evicted(w) == First(w);
      if ok && SatAdd(totalCost, newItem.virtualCost) > maxTotalCost && newItem.ExpiryProtected(height, protection) {
        ok, cands, k := EvictClass(true, newItem, maxTotalCost, height, protection);
        w := w.(shielded := cands, m := k, shieldedOk := ok);
        RemoveSeqConcat(p, First(w), w.shielded[..w.m]);
      }
      ok := ok && SatAdd(totalCost, newItem.virtualCost) <= maxTotalCost;
    }

    method UpdateDescendantScoresOnAdd(id: Id)
      modifies this
      ensures Model() == Raise(old(Model()), id)
    {
      if id in items {
        items := LiftScores(items, dependencies, id);
      }
    }
  }

  lemma CascadeState(p: Pool, ids: seq<Id>, rank: Id -> nat, bound: nat)
    requires Edged(p) && Ranked(p.dependencies, rank, bound)
    ensures Edged(RemoveSeq(p, ids)) && Ranked(RemoveSeq(p, ids).dependencies, rank, bound)
  {
    RemoveSeqChildren(p, ids, 0);
    forall x ensures Succ(RemoveSeq(p, ids).dependencies, x) <= Succ(p.dependencies, x) {
      RemoveSeqParents(p, ids, x);
    }
    RankedSubgraph(p.dependencies, RemoveSeq(p, ids).dependencies, rank, bound);
  }

  // ── The loops of `insert` and `remove`, one index at a time ──

  /** Joins the queue of every key, as bearer where there is none and as last waiter elsewhere. */
  method JoinDedup(d: Dedup, keys: seq<DedupKey>, id: Id) returns (r: Dedup)
    ensures r == DedupJoinAll(d, keys, id)
    ensures DedupTidy(d) && NoDup(keys) ==>
      DedupTidy(r) && forall k :: Queue(r, k) == Queue(d, k) + (if k in keys then [id] else [])
  {
    r := d;
    for i := 0 to |keys|
      invariant r == DedupJoinAll(d, keys[..i], id)
    {
      r := DedupJoin(r, keys[i], id);
      assert keys[..i + 1][..i] == keys[..i];
    }
    WholePrefix(keys);
    if DedupTidy(d) && NoDup(keys) { JoinedQueues(d, keys, id); }
  }

  /** Leaves the queue of every key; where the bearer leaves, the first waiter takes its place. */
  method LeaveDedup(d: Dedup, keys: seq<DedupKey>, id: Id) returns (r: Dedup)
    ensures r == DedupLeaveAll(d, keys, id)
    ensures DedupTidy(d) && NoDup(keys) && (forall k :: k in keys ==> NoDup(Queue(d, k))) ==>
      DedupTidy(r) && forall k :: Queue(r, k) == if k in keys then Without(Queue(d, k), id) else Queue(d, k)
  {
    r := d;
    for i := 0 to |keys|
      invariant r == DedupLeaveAll(d, keys[..i], id)
    {
      r := DedupLeave(r, keys[i], id);
      assert keys[..i + 1][..i] == keys[..i];
    }
    WholePrefix(keys);
    if DedupTidy(d) && NoDup(keys) && (forall k :: k in keys ==> NoDup(Queue(d, k))) { LeftQueues(d, keys, id); }
  }

  lemma JoinStep(deps: Edges, children: Edges, done: set<Id>, id: Id, q: Id)
    requires q !in done
    ensures var now := JoinParents(deps, done, id);
      JoinParents(deps, done + {q}, id) == now[id := Succ(now, id) + {q}]
    ensures var now := JoinChildren(children, done, id);
      JoinChildren(children, done + {q}, id) == now[q := Succ(now, q) + {id}]
  {
    assert Succ(deps, id) + (done + {q}) == Succ(JoinParents(deps, done, id), id) + {q};
  }

  method JoinGraph(dependencies: Edges, dependents: Edges, parents: set<Id>, id: Id) returns (deps: Edges, children: Edges)
    ensures deps == JoinParents(dependencies, parents, id)
    ensures children == JoinChildren(dependents, parents, id)
  {
    deps, children := dependencies, dependents;
    var rest := parents;
    while rest != {}
      invariant rest <= parents
      invariant deps == JoinParents(dependencies, parents - rest, id)
      invariant children == JoinChildren(dependents, parents - rest, id)
      decreases rest
    {
      var q :| q in rest;
      JoinStep(dependencies, dependents, parents - rest, id, q);
      deps := deps[id := Succ(deps, id) + {q}];
      children := children[q := Succ(children, q) + {id}];
      assert parents - (rest - {q}) == (parents - rest) + {q};
      rest := rest - {q};
    }
    assert parents - rest == parents;
  }

  /** `recompute_descendant_score`: own rate against the remaining active children. */
  method RecomputeScore(items: map<Id, Item>, dependents: Edges, id: Id) returns (r: map<Id, Item>)
    ensures r == if id in items then items[id := Rescored(items, dependents, id)] else items
  {
    if id !in items { return items; }
    var rest := Succ(dependents, id);
    var best: U128 := 0;
    while rest != {}
      invariant rest <= Succ(dependents, id)
      invariant IsMax(best, ChildRates(items, Succ(dependents, id) - rest))
      decreases rest
    {
      var c :| c in rest;
      ghost var seen := ChildRates(items, Succ(dependents, id) - rest);
      rest := rest - {c};
      ghost var now := ChildRates(items, Succ(dependents, id) - rest);
      assert now == if c in items then seen + {items[c].packageFpc} else seen;
      if c in items && best < items[c].packageFpc {
        best := items[c].packageFpc;
      }
    }
    assert Succ(dependents, id) - rest == Succ(dependents, id);
    MaxUnique(ChildRates(items, Succ(dependents, id)), best);
    var score := if best <= items[id].fpc then items[id].fpc else best;
    r := items[id := items[id].WithScore(score)];
  }

  /** The child edges part-way through `remove`: `id` has left the parents in `done`. */
  ghost predicate Leaving(before: Edges, now: Edges, done: set<Id>, id: Id) {
    now == map q | q in before && !(q in done && before[q] <= {id}) :: if q in done then before[q] - {id} else before[q]
  }

  lemma LeavingStep(before: Edges, now: Edges, done: set<Id>, parents: set<Id>, id: Id, q: Id)
    requires Leaving(before, now, done, id) && done <= parents && q in parents - done
    ensures var next := if q !in now then now else if now[q] <= {id} then now - {q} else now[q := now[q] - {id}];
      && Leaving(before, next, done + {q}, id)
      && (q != id ==> Succ(next, q) == Succ(LeaveChildren(before, parents, id), q))
  {
  }

  lemma SameRates(a: map<Id, Item>, b: map<Id, Item>, e: Edges, f: Edges, q: Id)
    requires Alike(a, b) && q in a && Succ(e, q) == Succ(f, q)
    ensures Rescored(a, e, q) == Rescored(b, f, q)
  {
    forall x | x in a ensures a[x].packageFpc == b[x].packageFpc && a[x].fpc == b[x].fpc {
      AlikeFields(a, b, x);
    }
    assert ChildRates(a, Succ(e, q)) == ChildRates(b, Succ(f, q));
    assert a[q].SameButScore(b[q]);
  }

  lemma RescoreStep(items: map<Id, Item>, final: Edges, done: set<Id>, now: Edges, q: Id)
    requires q !in done && (q in items ==> Succ(now, q) == Succ(final, q))
    ensures var r := RescoreAll(items, final, done);
      RescoreAll(items, final, done + {q}) == if q in r then r[q := Rescored(r, now, q)] else r
  {
    var r := RescoreAll(items, final, done);
    assert Alike(r, items);
    if q in items { SameRates(r, items, now, final, q); }
  }

  /** The graph part of `remove`, after `id` itself has left `items`. */
  method LeaveGraph(items: map<Id, Item>, dependencies: Edges, dependents: Edges, id: Id)
    returns (r: map<Id, Item>, deps: Edges, children: Edges)
    requires id !in items
    ensures deps == dependencies - {id}
    ensures children == LeaveChildren(dependents, Succ(dependencies, id), id)
    ensures r == RescoreAll(items, children, Succ(dependencies, id))
  {
    var parents := Succ(dependencies, id);
    r, deps, children := items, dependencies - {id}, dependents;
    ghost var final := LeaveChildren(dependents, parents, id);
    var rest := parents;
    while rest != {}
      invariant rest <= parents
      invariant Leaving(dependents, children, parents - rest, id)
      invariant r == RescoreAll(items, final, parents - rest)
      decreases rest
    {
      var q :| q in rest;
      LeavingStep(dependents, children, parents - rest, parents, id, q);
      if q in children {
        var siblings := children[q] - {id};
        children := if siblings == {} then children - {q} else children[q := siblings];
      }
      RescoreStep(items, final, parents - rest, children, q);
      r := RecomputeScore(r, children, q);
      assert parents - (rest - {q}) == (parents - rest) + {q};
      rest := rest - {q};
    }
    children := children - {id};
    assert parents - rest == parents;
  }

  /** State of the score walk: `lifted` nodes carry `rate`, every other visited node blocked it. */
  ghost predicate Lifting(items: map<Id, Item>, deps: Edges, rate: U128, roots: set<Id>,
                          visited: set<Id>, lifted: set<Id>, stack: seq<Id>, r: map<Id, Item>) {
    && Exploring(deps, Blocking(items, deps, rate), roots, lifted, stack)
    && roots <= Nodes(deps)
    && lifted <= visited <= lifted + Blocking(items, deps, rate) && visited <= Nodes(deps)
    && r == Rated(items, lifted, rate)
  }

  lemma LiftSkip(items: map<Id, Item>, deps: Edges, rate: U128, roots: set<Id>,
                 visited: set<Id>, lifted: set<Id>, stack: seq<Id>, r: map<Id, Item>)
    requires Lifting(items, deps, rate, roots, visited, lifted, stack, r) && stack != []
    requires var a := stack[|stack| - 1]; a in visited || a !in r || rate <= r[a].descendantScore
    ensures var a := stack[|stack| - 1];
      && a in Nodes(deps)
      && Lifting(items, deps, rate, roots, if a in visited then visited else visited + {a}, lifted, stack[..|stack| - 1], r)
  {
    PopElems(stack);
    ExploreSkip(deps, Blocking(items, deps, rate), roots, lifted, stack);
  }

  lemma LiftVisit(items: map<Id, Item>, deps: Edges, rate: U128, roots: set<Id>,
                  visited: set<Id>, lifted: set<Id>, stack: seq<Id>, r: map<Id, Item>, next: seq<Id>)
    requires Lifting(items, deps, rate, roots, visited, lifted, stack, r) && stack != []
    requires var a := stack[|stack| - 1];
      a !in visited && a in r && r[a].descendantScore < rate && Elems(next) == Succ(deps, a)
    ensures var a := stack[|stack| - 1];
      && a in Nodes(deps)
      && Lifting(items, deps, rate, roots, visited + {a}, lifted + {a}, stack[..|stack| - 1] + next,
                 r[a := r[a].WithScore(rate)])
  {
    PopElems(stack);
    ExploreVisit(deps, Blocking(items, deps, rate), roots, lifted, stack, next);
  }

  lemma LiftStart(items: map<Id, Item>, deps: Edges, rate: U128, id: Id, stack: seq<Id>)
    requires Elems(stack) == Succ(deps, id)
    ensures Lifting(items, deps, rate, Succ(deps, id), {}, {}, stack, items)
  {
    ExploreStart(deps, Blocking(items, deps, rate), Succ(deps, id), stack);
    SuccInNodes(deps, id);
    assert items == Rated(items, {}, rate);
  }

  ghost function Unvisited(deps: Edges, visited: set<Id>): set<Id> { Nodes(deps) - visited }

  lemma VisitOne(deps: Edges, visited: set<Id>, a: Id)
    requires a in Nodes(deps) && a !in visited
    ensures Unvisited(deps, visited + {a}) < Unvisited(deps, visited)
  {
    assert a in Unvisited(deps, visited);
  }

  /** One round of the score walk. */
  method LiftOne(items: map<Id, Item>, dependencies: Edges, rate: U128, ghost roots: set<Id>,
                 visited: set<Id>, ghost lifted: set<Id>, stack: seq<Id>, r: map<Id, Item>)
    returns (seen: set<Id>, ghost up: set<Id>, rest: seq<Id>, now: map<Id, Item>)
    requires Lifting(items, dependencies, rate, roots, visited, lifted, stack, r) && stack != []
    ensures Lifting(items, dependencies, rate, roots, seen, up, rest, now)
    ensures Unvisited(dependencies, seen) < Unvisited(dependencies, visited) || (seen == visited && |rest| < |stack|)
  {
    var a := stack[|stack| - 1];
    if a in visited || a !in r || rate <= r[a].descendantScore {
      LiftSkip(items, dependencies, rate, roots, visited, lifted, stack, r);
      seen, up, rest, now := if a in visited then visited else visited + {a}, lifted, stack[..|stack| - 1], r;
      if a !in visited { VisitOne(dependencies, visited, a); }
    } else {
      var grandparents := Enumerate(Succ(dependencies, a));
      LiftVisit(items, dependencies, rate, roots, visited, lifted, stack, r, grandparents);
      VisitOne(dependencies, visited, a);
      seen, up, rest := visited + {a}, lifted + {a}, stack[..|stack| - 1] + grandparents;
      now := r[a := r[a].WithScore(rate)];
    }
  }

  /** `update_descendant_scores_on_add`: walk up, stopping where the score is already high enough. */
  method LiftScores(items: map<Id, Item>, dependencies: Edges, id: Id) returns (r: map<Id, Item>)
    requires id in items
    ensures r == Rated(items, Lifted(items, dependencies, id), items[id].packageFpc)
  {
    var rate := items[id].packageFpc;
    ghost var roots := Succ(dependencies, id);
    var stack := Enumerate(Succ(dependencies, id));
    var visited: set<Id> := {};
    ghost var lifted: set<Id> := {};
    r := items;
    LiftStart(items, dependencies, rate, id, stack);
    while stack != []
      invariant Lifting(items, dependencies, rate, roots, visited, lifted, stack, r)
      decreases Unvisited(dependencies, visited), |stack|
    {
      visited, lifted, stack, r := LiftOne(items, dependencies, rate, roots, visited, lifted, stack, r);
    }
    ExploreDone(dependencies, Blocking(items, dependencies, rate), roots, lifted);
  }
}
