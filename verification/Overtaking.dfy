/**
 * A singleton successor may enter a block without its other parent (src/selection/strategies.rs:172-202);
 * `Packing.ClosedIff` says when none does. Bundles 1 and 2 form a chain, 2 also spends an output of 3, and
 * the cost budget has room for the chain only.
 */
module Overtaking {
  import opened Prelude
  import opened Items
  import opened Graph
  import opened Sorting
  import opened PoolState
  import opened PoolInvariants
  import opened Packages
  import opened Evictions
  import opened Admission
  import opened Admitted
  import opened Scenarios
  import opened Strategies
  import opened Packing
  import opened Ordering
  import opened BlockSelection

  const NEXT: CoinId := Created(COIN, 0, 1)
  const SIDE: CoinId := Created(OTHER, 0, 0)

  const LEADER: Candidate := Bid(1, 4, [COIN], [NEXT]).(launcher := Some(9))
  const HELPER: Candidate := Bid(3, 2, [OTHER], [SIDE])
  const FOLLOWER: Candidate := Bid(2, 1, [NEXT, SIDE], []).(launcher := Some(9))

  ghost predicate IsLeader(c: Candidate) { Offers(c, 1, 4, 1_000_000, [COIN], [NEXT]) && c.launcher == Some(9) }
  ghost predicate IsHelper(c: Candidate) { Offers(c, 3, 2, 1_000_000, [OTHER], [SIDE]) && c.launcher == None }
  ghost predicate IsFollower(c: Candidate) { Offers(c, 2, 1, 2_000_000, [NEXT, SIDE], []) && c.launcher == Some(9) }

  lemma Bids()
    ensures IsLeader(LEADER) && IsHelper(HELPER) && IsFollower(FOLLOWER)
  {
    BidOffers(1, 4, [COIN], [NEXT]);
    BidOffers(3, 2, [OTHER], [SIDE]);
    BidOffers(2, 1, [NEXT, SIDE], []);
  }

  lemma Rates()
    ensures FpcScaled(4, 1_000_000) == 4_000_000 && FpcScaled(2, 1_000_000) == 2_000_000 && FpcScaled(7, 4_000_000) == 1_750_000
  {
  }

  /** What the selector looks at. */
  ghost predicate Seen(i: Item, id: Id, fee: nat, cost: nat, packageFee: nat, packageFpc: nat, spends: nat, launcher: Option<Id>) {
    && i.id == id && i.fee == fee && i.virtualCost == cost && i.packageFee == packageFee && i.packageFpc == packageFpc
    && i.numSpends == spends && i.launcher == launcher && i.heightAdded == 0
    && i.assertHeight == None && i.assertSeconds == None && i.assertBeforeHeight == None && i.assertBeforeSeconds == None
  }

  ghost predicate TwoRoots(p: Pool) {
    && p.items.Keys == {1, 3} && p.items[1].dependsOn == {} && p.items[3].dependsOn == {}
    && p.items[1].depth == 0 && p.items[3].depth == 0
    && p.items[1].packageVirtualCost == 1_000_000 && p.items[3].packageVirtualCost == 1_000_000
    && Seen(p.items[1], 1, 4, 1_000_000, 4, 4_000_000, 1, Some(9)) && Seen(p.items[3], 3, 2, 1_000_000, 2, 2_000_000, 1, None)
    && p.singletonSpends == map[9 := [1]]
    && Looks(p, map[COIN := 1, OTHER := 3], map[NEXT := 1, SIDE := 3], map[], map[], 2_000_000, 2)
  }

  lemma RootsEnter(a: Candidate, b: Candidate) returns (p: Pool)
    requires IsLeader(a) && IsHelper(b)
    ensures Reached(p, CFG) && TwoRoots(p)
  {
    EmptyReached(CFG);
    Rates();
    var one := Alone(EMPTY, a, CHAIN, CFG, COIN, map[], map[], 0, 0);
    assert [] + [1] == [1];
    p := Alone(one, b, CHAIN, CFG, OTHER, map[COIN := 1], map[NEXT := 1], 1_000_000, 1);
  }

  lemma FollowerParents(p: Pool, c: Candidate)
    requires IsFollower(c) && p.mempoolCoins == map[NEXT := 1, SIDE := 3]
    ensures ParentsOf(p, c, CHAIN) == {1, 3} && Missing(p.mempoolCoins, CHAIN.onChain, c.removals).None?
  {
    assert NEXT in c.removals && SIDE in c.removals;
    MissingIff(p.mempoolCoins, CHAIN.onChain, c.removals);
  }

  lemma FollowerDepth(p: Pool)
    requires TwoRoots(p)
    ensures DepthOver(DepthOf(p.items), {1, 3}) == 1
  {
    assert Depths(DepthOf(p.items), {1, 3}) == {0} by { assert DepthOf(p.items)[1] == 0; }
    MaxUnique({0}, 0);
  }

  lemma FollowerPackage(p: Pool)
    requires TwoRoots(p)
    ensures {1, 3} <= PackageFees(p.items).Keys && {1, 3} <= PackageCosts(p.items).Keys
    ensures PackageValue(1, PackageFees(p.items), {1, 3}) == 7
    ensures PackageValue(2_000_000, PackageCosts(p.items), {1, 3}) == 4_000_000
  {
    TwoSum(PackageFees(p.items), 1, 3);
    TwoSum(PackageCosts(p.items), 1, 3);
  }

  lemma FollowerBuilt(p: Pool, c: Candidate)
    requires IsFollower(c) && CoinsTrue(p) && TwoRoots(p)
    ensures var item := Built(p, p, c, CHAIN);
      Seen(item, 2, 1, 2_000_000, 7, 1_750_000, 2, Some(9)) && item.dependsOn == {1, 3} && item.removals == [NEXT, SIDE] && item.dedupKeys == []
  {
    FollowerParents(p, c);
    FollowerPackage(p);
    Rates();
  }

  lemma FollowerFree(p: Pool, c: Candidate)
    requires IsFollower(c) && p.coinIndex == map[COIN := 1, OTHER := 3]
    ensures Elems(c.removals) !! p.coinIndex.Keys
  {
    assert Elems([NEXT, SIDE]) == {NEXT, SIDE};
  }

  /** The pool from which the block is selected. */
  ghost predicate Trio(p: Pool) {
    && p.items.Keys == {1, 2, 3}
    && Seen(p.items[1], 1, 4, 1_000_000, 4, 4_000_000, 1, Some(9)) && Seen(p.items[3], 3, 2, 1_000_000, 2, 2_000_000, 1, None)
    && Seen(p.items[2], 2, 1, 2_000_000, 7, 1_750_000, 2, Some(9))
    && p.singletonSpends == map[9 := [1, 2]] && p.dependencies == map[2 := {1, 3}]
  }

  lemma SeenAlike(a: Item, b: Item, id: Id, fee: nat, cost: nat, packageFee: nat, packageFpc: nat, spends: nat, launcher: Option<Id>)
    requires a.SameButScore(b) && Seen(b, id, fee, cost, packageFee, packageFpc, spends, launcher)
    ensures Seen(a, id, fee, cost, packageFee, packageFpc, spends, launcher)
  {
  }

  lemma TrioJoins(p: Pool, item: Item)
    requires TwoRoots(p) && Seen(item, 2, 1, 2_000_000, 7, 1_750_000, 2, Some(9)) && item.dependsOn == {1, 3}
    ensures Trio(Admit(p, item))
  {
    var r := Admit(p, item);
    AdmitItems(p, item);
    AlikeItem(r.items, p.items[2 := item], 1);
    AlikeItem(r.items, p.items[2 := item], 2);
    AlikeItem(r.items, p.items[2 := item], 3);
    SeenAlike(r.items[1], p.items[1], 1, 4, 1_000_000, 4, 4_000_000, 1, Some(9));
    SeenAlike(r.items[2], item, 2, 1, 2_000_000, 7, 1_750_000, 2, Some(9));
    SeenAlike(r.items[3], p.items[3], 3, 2, 1_000_000, 2, 2_000_000, 1, None);
    TrioEdges(p, item);
  }

  lemma TrioMaps()
    ensures ChainJoin(map[9 := [1]], Some(9), 2) == map[9 := [1, 2]] && JoinParents(map[], {1, 3}, 2) == map[2 := {1, 3}]
  {
    assert Succ(map[], 2) + {1, 3} == {1, 3};
    assert [1] + [2] == [1, 2];
  }

  lemma AdmitChains(p: Pool, item: Item)
    ensures Admit(p, item).singletonSpends == ChainJoin(p.singletonSpends, item.launcher, item.id)
  {
  }

  lemma TrioEdges(p: Pool, item: Item)
    requires p.dependencies == map[] && p.singletonSpends == map[9 := [1]] && item.id == 2 && item.launcher == Some(9) && item.dependsOn == {1, 3}
    ensures Admit(p, item).singletonSpends == map[9 := [1, 2]] && Admit(p, item).dependencies == map[2 := {1, 3}]
  {
    AdmitGraph(p, item);
    AdmitChains(p, item);
    TrioMaps();
  }

  lemma FollowerEnters(roots: Pool, c: Candidate)
    requires IsFollower(c) && Reached(roots, CFG) && CoinsTrue(roots) && TwoRoots(roots)
    ensures Reached(Admit(roots, Built(roots, roots, c, CHAIN)), CFG)
  {
    FollowerParents(roots, c);
    FollowerDepth(roots);
    FollowerFree(roots, c);
    FollowerHasRoom(roots, c);
    AmongReached(roots, c, CHAIN, CFG);
  }

  lemma FollowerHasRoom(roots: Pool, c: Candidate)
    requires IsFollower(c) && TwoRoots(roots)
    ensures c.id !in roots.items && NoOrphans(roots.items)
    ensures SatAdd(roots.totalSpends, c.numSpends) <= CFG.maxSpends && Fits(roots, c.Cost(), CFG.maxTotalCost)
  {
  }

  lemma TrioEnters() returns (p: Pool)
    ensures Reached(p, CFG) && Trio(p)
  {
    Bids();
    var roots := RootsEnter(LEADER, HELPER);
    ReachedCoins(roots, CFG);
    FollowerEnters(roots, FOLLOWER);
    FollowerBuilt(roots, FOLLOWER);
    p := Admit(roots, Built(roots, roots, FOLLOWER, CHAIN));
    TrioJoins(roots, Built(roots, roots, FOLLOWER, CHAIN));
  }

  // ── The four orders ──

  lemma HeadFirst(a: Key, b: Key)
    requires |a| > 1 && |b| > 1 && (a[0] < b[0] || (a[0] == b[0] && a[1] < b[1]))
    ensures AtMost(a, b)
  {
    assert b[1..][0] == b[1] && a[1..][0] == a[1];
  }

  lemma OrderOfThree(key: map<Id, Key>, a: Id, b: Id, c: Id)
    requires a in key && b in key && c in key
    requires AtMost(key[a], key[b]) && AtMost(key[a], key[c]) && AtMost(key[b], key[c])
    ensures SortedBy(key, [a, b, c])
  {
    var xs := [a, b, c];
    assert Elems(xs) == {a, b, c};
    forall i, j | 0 <= i < j < 3 ensures AtMost(key[xs[i]], key[xs[j]]) {}
  }

  lemma ByRate(s: Strategy, items: map<Id, Item>)
    requires 1 in items && 2 in items && 3 in items && s != Whale
    requires Seen(items[1], 1, 4, 1_000_000, 4, 4_000_000, 1, Some(9)) && Seen(items[3], 3, 2, 1_000_000, 2, 2_000_000, 1, None)
    requires Seen(items[2], 2, 1, 2_000_000, 7, 1_750_000, 2, Some(9))
    ensures InOrder(s, items, {1, 2, 3}, [1, 3, 2])
  {
    HeadFirst(SortKey(s, items[1]), SortKey(s, items[3]));
    HeadFirst(SortKey(s, items[1]), SortKey(s, items[2]));
    HeadFirst(SortKey(s, items[3]), SortKey(s, items[2]));
    OrderOfThree(SortKeys(s, items), 1, 3, 2);
    assert Elems([1, 3, 2]) == {1, 2, 3};
  }

  lemma ByFee(items: map<Id, Item>)
    requires 1 in items && 2 in items && 3 in items
    requires Seen(items[1], 1, 4, 1_000_000, 4, 4_000_000, 1, Some(9)) && Seen(items[3], 3, 2, 1_000_000, 2, 2_000_000, 1, None)
    requires Seen(items[2], 2, 1, 2_000_000, 7, 1_750_000, 2, Some(9))
    ensures InOrder(Whale, items, {1, 2, 3}, [2, 1, 3])
  {
    HeadFirst(SortKey(Whale, items[2]), SortKey(Whale, items[1]));
    HeadFirst(SortKey(Whale, items[2]), SortKey(Whale, items[3]));
    HeadFirst(SortKey(Whale, items[1]), SortKey(Whale, items[3]));
    OrderOfThree(SortKeys(Whale, items), 2, 1, 3);
    assert Elems([2, 1, 3]) == {1, 2, 3};
  }

  // ── The four passes ──

  ghost predicate TrioTemplate(t: Template) {
    && t.items.Keys == {1, 2, 3} == t.cands
    && t.items[1].virtualCost == 1_000_000 && t.items[2].virtualCost == 2_000_000 && t.items[3].virtualCost == 1_000_000
    && t.items[1].numSpends == 1 && t.items[2].numSpends == 2 && t.items[3].numSpends == 1
    && t.items[1].launcher == Some(9) && t.items[2].launcher == Some(9)
    && t.chains == map[9 := [1, 2]] && t.deps == map[2 := {1, 3}] && t.maxCost == 3_000_000 && t.maxSpends == 100
  }

  lemma LeaderPulls(t: Template)
    requires TrioTemplate(t)
    ensures Ancestors(t.deps, 1) == {} && Behind(t, 1) == {2} && Complete(t, 1) && Pulled(t, 1) == {1, 2}
  {
    ReachLeast(t.deps, {}, {}, {});
    assert After([1, 2], 1) == [2];
    assert Elems([2]) == {2};
  }

  lemma LeaderTaken(t: Template)
    requires TrioTemplate(t)
    ensures PackStep(t, EMPTY_BLOCK, 1).ids == {1, 2} && PackStep(t, EMPTY_BLOCK, 1).cost == 3_000_000
  {
    LeaderPulls(t);
    OneSum(Costs(t.items), 2);
    OneSum(Spends(t.items), 2);
    FirstStep(t, 1);
  }

  lemma FollowerPulls(t: Template)
    requires TrioTemplate(t)
    ensures NewAncestors(t, {}, 2) == {1, 3} && NewSuccessors(t, {}, 2) == {}
  {
    ReachLeast(t.deps, {}, {1, 3}, {1, 3});
    ReachCovers(t.deps, {}, {1, 3});
    assert After([1, 2], 2) == After([2], 2) == [] by { assert [1, 2][1..] == [2] && [2][1..] == []; }
    ElemsEmpty<Id>([]);
  }

  lemma FollowerRefused(t: Template)
    requires TrioTemplate(t)
    ensures PackStep(t, EMPTY_BLOCK, 2) == EMPTY_BLOCK
  {
    FollowerPulls(t);
    TwoSum(Costs(t.items), 1, 3);
    assert !Taken(t, EMPTY_BLOCK, 2);
  }

  lemma FirstOf(t: Template, xs: seq<Id>)
    requires t.cands <= t.items.Keys && Elems(xs) <= t.cands && xs != []
    ensures xs[0] in t.items && Pack(t, xs, 1) == PackStep(t, EMPTY_BLOCK, xs[0])
  {
    assert xs[0] in Elems(xs);
    assert Pack(t, xs, 0) == EMPTY_BLOCK;
  }

  lemma RatePass(t: Template)
    requires TrioTemplate(t)
    ensures Elems([1, 3, 2]) == t.cands && Pack(t, [1, 3, 2], 3) == PackStep(t, EMPTY_BLOCK, 1)
  {
    var xs: seq<Id> := [1, 3, 2];
    assert Elems(xs) == {1, 2, 3};
    FirstOf(t, xs);
    LeaderTaken(t);
    NothingMore(t, xs, 3);
  }

  lemma FeePass(t: Template)
    requires TrioTemplate(t)
    ensures Elems([2, 1, 3]) == t.cands && Pack(t, [2, 1, 3], 3) == PackStep(t, EMPTY_BLOCK, 1)
  {
    var xs: seq<Id> := [2, 1, 3];
    assert Elems(xs) == {1, 2, 3};
    FollowerRefused(t);
    FirstOf(t, xs);
    LeaderTaken(t);
    UsedUp(t, PackStep(t, EMPTY_BLOCK, 1), 3);
    assert Pack(t, xs, 2) == PackStep(t, EMPTY_BLOCK, 1);
  }

  lemma ChainListed(items: map<Id, Item>)
    requires 1 in items && 2 in items
    ensures Topological(items, map[2 := {1, 3}], {1, 2}, map[1 := 0, 2 := 1], [1, 2])
  {
    var deps: Edges, layer: map<Id, nat> := map[2 := {1, 3}], map[1 := 0, 2 := 1];
    assert Succ(deps, 2) * {1, 2} == {1} && Succ(deps, 1) * {1, 2} == {};
    assert Depths(layer, {1}) == {0};
    MaxUnique({0}, 0);
    assert Elems([1, 2]) == {1, 2};
    HeadFirst(OrderKeys(items, layer)[1], OrderKeys(items, layer)[2]);
  }

  ghost const ORDERS: Choice := Choice([1, 3, 2], [2, 1, 3], [1, 3, 2], [1, 3, 2], 0, map[1 := 0, 2 := 1])

  lemma TrioBlocks(t: Template)
    requires TrioTemplate(t) && Ordered4(t, ORDERS)
    ensures var b := PackStep(t, EMPTY_BLOCK, 1); Blocks(t, ORDERS) == [b, b, b, b]
  {
    RatePass(t);
    FeePass(t);
  }

  /** When all passes agree, their selection is the block. */
  lemma BlockWhen(t: Template, c: Choice, b: Packed, xs: seq<Id>)
    requires t.cands <= t.items.Keys && Ordered4(t, c) && Blocks(t, c) == [b, b, b, b] && c.k == 0
    requires Topological(t.items, t.deps, b.ids, c.layer, xs)
    ensures IsBlock(t, xs)
  {
    EqualBlocks(Blocks(t, c));
    assert LeadsTo(t, c, xs);
  }

  lemma TrioBlock(t: Template)
    requires TrioTemplate(t) && Ordered4(t, ORDERS)
    ensures IsBlock(t, [1, 2])
  {
    TrioBlocks(t);
    LeaderTaken(t);
    ChainListed(t.items);
    BlockWhen(t, ORDERS, PackStep(t, EMPTY_BLOCK, 1), [1, 2]);
  }

  /** From this reached pool the selector returns the chain without the other parent of its second member. */
  lemma ChainMayOutrunParents() returns (p: Pool)
    ensures Reached(p, CFG) && 3 in Succ(p.dependencies, 2) && 3 in p.items
    ensures IsBlock(TemplateOf(p, 3_000_000, CFG.maxSpends, 0, 0), [1, 2])
  {
    p := TrioEnters();
    TrioSelected(p);
  }

  lemma TrioSelected(p: Pool)
    requires Trio(p)
    ensures IsBlock(TemplateOf(p, 3_000_000, CFG.maxSpends, 0, 0), [1, 2])
  {
    var t := TemplateOf(p, 3_000_000, CFG.maxSpends, 0, 0);
    assert t.cands == {1, 2, 3};
    ByRate(Density, p.items);
    ByRate(Compact, p.items);
    ByRate(Age, p.items);
    ByFee(p.items);
    TrioBlock(t);
  }
}
