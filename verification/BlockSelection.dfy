/** `select_for_block`: filter, four greedy passes, comparator, ordering (src/mempool/selection.rs). */
module BlockSelection {
  import opened Prelude
  import opened Items
  import opened Sums
  import opened Sorting
  import opened Graph
  import opened Timelocks
  import opened PoolInvariants
  import opened Strategies
  import opened Packing
  import opened Ordering
  import opened PoolState
  import ActivePools
  import Queues

  function WindowOf(i: Item): Window {
    Window(i.assertHeight, i.assertSeconds, i.assertBeforeHeight, i.assertBeforeSeconds)
  }

  /** `sel_002_is_selectable`, check by check. */
  predicate IsSelectable(item: Item, height: U64, timestamp: U64) {
    if item.assertBeforeHeight.Some? && item.assertBeforeHeight.value <= height then false
    else if item.assertBeforeSeconds.Some? && item.assertBeforeSeconds.value <= timestamp then false
    else if item.assertHeight.Some? && item.assertHeight.value > height then false
    else if item.assertSeconds.Some? && item.assertSeconds.value > timestamp then false
    else true
  }

  lemma SelectableIffOpen(item: Item, height: U64, timestamp: U64)
    ensures IsSelectable(item, height, timestamp) <==> OpenAt(WindowOf(item), height, timestamp)
  {
  }

  lemma SelectableMeans(item: Item, height: U64, timestamp: U64)
    ensures IsSelectable(item, height, timestamp) <==>
      && (item.assertHeight.Some? ==> item.assertHeight.value <= height)
      && (item.assertSeconds.Some? ==> item.assertSeconds.value <= timestamp)
      && (item.assertBeforeHeight.Some? ==> height < item.assertBeforeHeight.value)
      && (item.assertBeforeSeconds.Some? ==> timestamp < item.assertBeforeSeconds.value)
  {
  }

  ghost function Candidates(items: map<Id, Item>, height: U64, timestamp: U64): set<Id> {
    set b | b in items && IsSelectable(items[b], height, timestamp)
  }

  ghost function TemplateOf(p: Pool, maxCost: U64, maxSpends: U64, height: U64, timestamp: U64): Template {
    Template(p.items, p.dependencies, p.singletonSpends, Candidates(p.items, height, timestamp), maxCost, maxSpends)
  }

  /** What is selected from: the pool as it is, and every active item all of whose bounds are met, nobody else. */
  lemma TemplateMeans(p: Pool, maxCost: U64, maxSpends: U64, height: U64, timestamp: U64, b: Id)
    ensures var t := TemplateOf(p, maxCost, maxSpends, height, timestamp);
      && t.items == p.items && t.deps == p.dependencies && t.chains == p.singletonSpends
      && t.maxCost == maxCost && t.maxSpends == maxSpends && t.cands <= p.items.Keys
      && (b in p.items ==>
          (b in t.cands <==>
            && (p.items[b].assertHeight.Some? ==> p.items[b].assertHeight.value <= height)
            && (p.items[b].assertSeconds.Some? ==> p.items[b].assertSeconds.value <= timestamp)
            && (p.items[b].assertBeforeHeight.Some? ==> height < p.items[b].assertBeforeHeight.value)
            && (p.items[b].assertBeforeSeconds.Some? ==> timestamp < p.items[b].assertBeforeSeconds.value)))
  {
  }

  /** The four orders, the winning pass and its layers that lead to `xs`. */
  datatype Choice = Choice(density: seq<Id>, whale: seq<Id>, compact: seq<Id>, age: seq<Id>, k: nat, layer: map<Id, nat>)

  ghost predicate Ordered4(t: Template, c: Choice) {
    && InOrder(Density, t.items, t.cands, c.density) && InOrder(Whale, t.items, t.cands, c.whale)
    && InOrder(Compact, t.items, t.cands, c.compact) && InOrder(Age, t.items, t.cands, c.age)
  }

  ghost function Blocks(t: Template, c: Choice): seq<Packed>
    requires t.cands <= t.items.Keys && Ordered4(t, c)
  {
    [Pack(t, c.density, |c.density|), Pack(t, c.whale, |c.whale|),
     Pack(t, c.compact, |c.compact|), Pack(t, c.age, |c.age|)]
  }

  ghost predicate LeadsTo(t: Template, c: Choice, xs: seq<Id>)
    requires t.cands <= t.items.Keys
  {
    && Ordered4(t, c)
    && IsBest(Blocks(t, c), c.k)
    && Topological(t.items, t.deps, Blocks(t, c)[c.k].ids, c.layer, xs)
  }

  ghost predicate IsBlock(t: Template, xs: seq<Id>)
    requires t.cands <= t.items.Keys
  {
    exists c :: LeadsTo(t, c, xs)
  }

  // ── Determinism ──

  /** Whatever order the hash maps are walked in, the block is the same list. */
  lemma OneBlock(t: Template, xs: seq<Id>, ys: seq<Id>)
    requires Usable(t) && Keyed(t.items) && IsBlock(t, xs) && IsBlock(t, ys)
    ensures xs == ys
  {
    var a :| LeadsTo(t, a, xs);
    var b :| LeadsTo(t, b, ys);
    OneOrder(Density, t.items, t.cands, a.density, b.density);
    OneOrder(Whale, t.items, t.cands, a.whale, b.whale);
    OneOrder(Compact, t.items, t.cands, a.compact, b.compact);
    OneOrder(Age, t.items, t.cands, a.age, b.age);
    OneBest(Blocks(t, a), a.k, b.k);
    var _ := SomePackSelected(t, a);
    OneTopological(t.items, t.deps, Blocks(t, a)[a.k].ids, a.layer, xs, b.layer, ys);
  }

  /** The pass that won is the fold over one of the four orders. */
  lemma SomePackSelected(t: Template, c: Choice) returns (xs: seq<Id>)
    requires t.cands <= t.items.Keys && Usable(t) && Ordered4(t, c) && c.k < 4
    ensures Elems(xs) == t.cands && Blocks(t, c)[c.k] == Pack(t, xs, |xs|)
    ensures Blocks(t, c)[c.k].ids <= t.items.Keys
  {
    xs := if c.k == 0 then c.density else if c.k == 1 then c.whale else if c.k == 2 then c.compact else c.age;
    PackWithin(t, xs, |xs|);
  }

  lemma {:induction false} PackWithin(t: Template, xs: seq<Id>, n: nat)
    requires t.cands <= t.items.Keys && Elems(xs) <= t.cands && n <= |xs|
    ensures Pack(t, xs, n).ids <= t.cands
  {
    if n > 0 {
      PackWithin(t, xs, n - 1);
      assert xs[n - 1] in Elems(xs);
    }
  }

  // ── End to end ──

  /** Distinct candidates within both budgets; the spend limit needs only be one that the whole pool keeps anyway. */
  lemma BlockWithinBudgets(t: Template, xs: seq<Id>)
    requires Usable(t) && IsBlock(t, xs)
    ensures NoDup(xs) && Elems(xs) <= t.cands
    ensures Sum(Costs(t.items), Elems(xs)) <= t.maxCost
    ensures SpendsAddUp(t) || Total(Spends(t.items)) <= t.maxSpends ==> Sum(Spends(t.items), Elems(xs)) <= t.maxSpends
  {
    var c :| LeadsTo(t, c, xs);
    var order := SomePackSelected(t, c);
    PackSafe(t, order, |order|);
    SumMono(Spends(t.items), Elems(xs), Spends(t.items).Keys);
    if SpendsAddUp(t) { PackSpends(t, order, |order|); }
  }

  /** Every ancestor of a listed item is listed, strictly earlier. */
  lemma AncestorsFirst(t: Template, xs: seq<Id>, i: nat)
    requires Usable(t) && ChainClosed(t) && IsBlock(t, xs) && i < |xs|
    ensures Ancestors(t.deps, xs[i]) <= Elems(xs[..i])
  {
    forall j | 0 <= j < |xs| ensures Succ(t.deps, xs[j]) <= Elems(xs[..j]) {
      ParentsListedFirst(t, xs, j);
    }
    var done := Elems(xs[..i]);
    forall y | y in done ensures Succ(t.deps, y) <= done {
      var j :| 0 <= j < i && xs[..i][j] == y;
      assert forall z :: z in xs[..j] ==> z in xs[..i];
    }
    ReachLeast(t.deps, {}, Succ(t.deps, xs[i]), done);
  }

  lemma ParentsListedFirst(t: Template, xs: seq<Id>, i: nat)
    requires Usable(t) && ChainClosed(t) && IsBlock(t, xs) && i < |xs|
    ensures Succ(t.deps, xs[i]) <= Elems(xs[..i])
  {
    var c :| LeadsTo(t, c, xs);
    var order := SomePackSelected(t, c);
    PackClosed(t, order, |order|);
    var sel := Blocks(t, c)[c.k].ids;
    assert xs[i] in Elems(xs);
    forall q | q in Succ(t.deps, xs[i]) ensures q in xs[..i] {
      ParentsFirst(t.items, t.deps, sel, c.layer, xs, i, q);
    }
  }

  /** No coin is spent twice, in pools that share coins too, as long as no candidate pulls along a clash. */
  lemma NoCoinTwice(t: Template, xs: seq<Id>, i: nat, j: nat, coin: CoinId)
    requires Usable(t) && BatchesApart(t) && IsBlock(t, xs)
    requires i < |xs| && j < |xs| && xs[i] in t.items && xs[j] in t.items
    requires coin in t.items[xs[i]].removals && coin in t.items[xs[j]].removals
    ensures i == j
  {
    var c :| LeadsTo(t, c, xs);
    var order := SomePackSelected(t, c);
    PackApart(t, order, |order|);
    BlockWithinBudgets(t, xs);
    assert xs[i] in Elems(xs) && xs[j] in Elems(xs);
  }

  /** Where no two active items share a coin there is nothing to pull along. */
  lemma DisjointApart(t: Template)
    requires t.cands <= t.items.Keys && IndexedDisjoint(t.items)
    ensures BatchesApart(t)
  {
  }

  /**
   * The chosen block is maximal: adding any unlisted candidate whose ancestors are all candidates, with
   * whatever it pulls along, breaks a budget or spends a coin twice.
   */
  lemma BlockMaximal(t: Template, xs: seq<Id>, x: Id)
    requires Usable(t) && Untangled(t) && IsBlock(t, xs)
    requires x in t.cands && x !in xs && Complete(t, x)
    ensures Elems(xs) <= t.cands && CannotJoin(t, Elems(xs), x)
  {
    var c :| LeadsTo(t, c, xs);
    var order := SomePackSelected(t, c);
    assert x !in Elems(xs);
    Maximal(t, order, x);
  }

  /**
   * The block lists what the first of the four passes selected that no other beats: on fees, then cost, then
   * number; passes in the order density, whale, compact, age.
   */
  lemma BlockIsBest(t: Template, xs: seq<Id>, density: seq<Id>, whale: seq<Id>, compact: seq<Id>, age: seq<Id>) returns (k: nat)
    requires Usable(t) && Keyed(t.items) && IsBlock(t, xs)
    requires InOrder(Density, t.items, t.cands, density) && InOrder(Whale, t.items, t.cands, whale)
    requires InOrder(Compact, t.items, t.cands, compact) && InOrder(Age, t.items, t.cands, age)
    ensures var passes := [Pack(t, density, |density|), Pack(t, whale, |whale|), Pack(t, compact, |compact|), Pack(t, age, |age|)];
      && k < 4 && Elems(xs) == passes[k].ids
      && forall j :: 0 <= j < 4 ==> var a, b := passes[k], passes[j];
        || a.fees > b.fees
        || (a.fees == b.fees && a.cost < b.cost)
        || (a.fees == b.fees && a.cost == b.cost && |a.ids| < |b.ids|)
        || (a.fees == b.fees && a.cost == b.cost && |a.ids| == |b.ids| && k <= j)
  {
    var c :| LeadsTo(t, c, xs);
    k := c.k;
    OneOrder(Density, t.items, t.cands, c.density, density);
    OneOrder(Whale, t.items, t.cands, c.whale, whale);
    OneOrder(Compact, t.items, t.cands, c.compact, compact);
    OneOrder(Age, t.items, t.cands, c.age, age);
    forall j: nat | j < 4 ensures !Beats(Blocks(t, c), j, k) && (j < k ==> Beats(Blocks(t, c), k, j)) {}
    forall j: nat | j < 4
      ensures var a, b := Blocks(t, c)[k], Blocks(t, c)[j];
        || a.fees > b.fees
        || (a.fees == b.fees && a.cost < b.cost)
        || (a.fees == b.fees && a.cost == b.cost && |a.ids| < |b.ids|)
        || (a.fees == b.fees && a.cost == b.cost && |a.ids| == |b.ids| && k <= j)
    {
      BeatsMeans(Blocks(t, c), j, k);
      BeatsMeans(Blocks(t, c), k, j);
    }
  }

  lemma NotBeatenEarns(blocks: seq<Packed>, j: nat, k: nat)
    requires j < |blocks| && k < |blocks| && !Beats(blocks, j, k)
    ensures blocks[j].fees <= blocks[k].fees
  {
    assert Merit(blocks[j])[0] == Desc(blocks[j].fees) && Merit(blocks[k])[0] == Desc(blocks[k].fees);
  }

  function Rank(s: Strategy): nat {
    match s case Density => 0 case Whale => 1 case Compact => 2 case Age => 3
  }

  lemma PassOf(t: Template, c: Choice, s: Strategy, order: seq<Id>)
    requires Usable(t) && Keyed(t.items) && Ordered4(t, c) && InOrder(s, t.items, t.cands, order)
    ensures Blocks(t, c)[Rank(s)] == Pack(t, order, |order|)
  {
    var own := match s case Density => c.density case Whale => c.whale case Compact => c.compact case Age => c.age;
    OneOrder(s, t.items, t.cands, own, order);
  }

  /** No strategy's pass earns more than the chosen block. */
  lemma NoPassEarnsMore(t: Template, xs: seq<Id>, s: Strategy, order: seq<Id>)
    requires Usable(t) && Untangled(t) && Keyed(t.items) && IsBlock(t, xs) && InOrder(s, t.items, t.cands, order)
    ensures Elems(xs) <= t.items.Keys
    ensures Pack(t, order, |order|).fees <= SatAdd(0, Sum(Fees(t.items), Elems(xs)))
  {
    var c :| LeadsTo(t, c, xs);
    var winner := SomePackSelected(t, c);
    PackSettled(t, winner, |winner|);
    PassOf(t, c, s, order);
    assert !Beats(Blocks(t, c), Rank(s), c.k);
    NotBeatenEarns(Blocks(t, c), Rank(s), c.k);
  }

  /** In a pool with exact coin indexes removals are pairwise disjoint. */
  lemma FullIndexDisjoint(p: Pool)
    requires CoinsFull(p)
    ensures IndexedDisjoint(p.items)
  {
    forall a, b, c | a in p.items && b in p.items && c in p.items[a].removals && c in p.items[b].removals
      ensures a == b
    {
      assert c in Removals(p.items)[a] && c in Removals(p.items)[b];
      assert p.coinIndex[c] == a && p.coinIndex[c] == b;
    }
  }

  lemma SoundUsable(p: Pool, maxCost: U64, maxSpends: U64, height: U64, timestamp: U64)
    requires Sound(p)
    ensures Usable(TemplateOf(p, maxCost, maxSpends, height, timestamp))
  {
    forall l | l in p.singletonSpends ensures NoDup(p.singletonSpends[l]) {
      assert Chain(p.singletonSpends, l) == Queues.Restrict(p.order, OfLauncher(Launchers(p.items), l));
      Queues.RestrictFacts(p.order, OfLauncher(Launchers(p.items), l));
    }
  }

  method SelectForBlock(pool: ActivePools.ActivePool, maxCost: U64, maxSpends: U64, height: U64, timestamp: U64)
    returns (block: seq<Item>)
    requires Sound(pool.Model())
    ensures IsBlock(TemplateOf(pool.Model(), maxCost, maxSpends, height, timestamp), IdsOf(block))
    ensures forall i :: 0 <= i < |block| ==> block[i].id in pool.items && block[i] == pool.items[block[i].id]
  {
    SoundUsable(pool.Model(), maxCost, maxSpends, height, timestamp);
    var cands := set b | b in pool.items && IsSelectable(pool.items[b], height, timestamp);
    var t := Template(pool.items, pool.dependencies, pool.singletonSpends, cands, maxCost, maxSpends);
    var ids: seq<Id> := [];
    if cands == {} { NoCandidates(t); } else { ids := SelectIds(t); }
    block := ItemsFor(pool.items, ids);
  }

  /** Without candidates the block is empty. */
  lemma NoCandidates(t: Template)
    requires t.cands == {}
    ensures IsBlock(t, [])
  {
    var c := Choice([], [], [], [], 0, map[]);
    ElemsEmpty<Id>([]);
    var four := [EMPTY_BLOCK, EMPTY_BLOCK, EMPTY_BLOCK, EMPTY_BLOCK];
    assert Blocks(t, c) == four;
    EqualBlocks(four);
    assert LeadsTo(t, c, []);
  }

  lemma EqualBlocks(blocks: seq<Packed>)
    requires blocks != [] && forall i :: 0 <= i < |blocks| ==> blocks[i] == blocks[0]
    ensures IsBest(blocks, 0)
  {
    LessTotal(Merit(blocks[0]), Merit(blocks[0]));
  }

  method ItemsFor(items: map<Id, Item>, ids: seq<Id>) returns (block: seq<Item>)
    requires Elems(ids) <= items.Keys && Keyed(items)
    ensures |block| == |ids| && forall i :: 0 <= i < |ids| ==> ids[i] in items && block[i] == items[ids[i]]
    ensures IdsOf(block) == ids
  {
    block := [];
    for i := 0 to |ids|
      invariant |block| == i && forall j :: 0 <= j < i ==> ids[j] in items && block[j] == items[ids[j]] && block[j].id == ids[j]
    {
      assert ids[i] in Elems(ids);
      block := block + [items[ids[i]]];
    }
    assert IdsOf(block) == ids;
  }

  /** The four passes over the same candidates. */
  method FourPasses(t: Template) returns (blocks: seq<Packed>, ghost choice: Choice)
    requires Usable(t)
    ensures choice.k == 0 && Ordered4(t, choice) && blocks == Blocks(t, choice)
  {
    ghost var d, w, c, a;
    var b1, b2, b3, b4;
    b1, d := SelGreedy(t, Density);
    b2, w := SelGreedy(t, Whale);
    b3, c := SelGreedy(t, Compact);
    b4, a := SelGreedy(t, Age);
    blocks := [b1, b2, b3, b4];
    choice := Choice(d, w, c, a, 0, map[]);
  }

  method SelectIds(t: Template) returns (xs: seq<Id>)
    requires Usable(t)
    ensures IsBlock(t, xs) && Elems(xs) <= t.items.Keys
  {
    var blocks;
    ghost var choice;
    blocks, choice := FourPasses(t);
    var k := SelBest(blocks);
    choice := choice.(k := k);
    var _ := SomePackSelected(t, choice);
    ghost var layer;
    xs, layer := TopologicalOrder(t.items, t.deps, blocks[k].ids);
    assert LeadsTo(t, choice.(layer := layer), xs);
  }
}
