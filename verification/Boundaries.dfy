/** Lost parents, cycles and forgotten coins: runs from the empty pool that get there, and exact conditions. */
module Boundaries {
  import opened Prelude
  import opened Items
  import opened Graph
  import opened PoolState
  import opened PoolInvariants
  import opened Evictions
  import opened Packages
  import opened Rbf
  import opened Admission
  import opened Admitted
  import opened Scenarios

  // ── A newcomer may replace its own parent, and the defensive cycle check is not dead code ──

  const MADE: CoinId := Created(COIN, 0, 1_000_000_000)
  const DEEP: CoinId := Created(MADE, 0, 999_999_000)

  const ELDER: Candidate := Bid(10, 1000, [COIN], [MADE])
  const HEIR: Candidate := Bid(2, 1000, [MADE], [DEEP])
  const USURPER: Candidate := Bid(1, 1_000_000_000, [COIN, DEEP], [MADE])

  ghost predicate IsElder(c: Candidate) { Offers(c, 10, 1000, 1_000_000, [COIN], [MADE]) }
  ghost predicate IsHeir(c: Candidate) { Offers(c, 2, 1000, 1_000_000, [MADE], [DEEP]) }
  ghost predicate IsUsurper(c: Candidate) { Offers(c, 1, 1_000_000_000, 2_000_000, [COIN, DEEP], [MADE]) }

  lemma Bids()
    ensures IsElder(ELDER) && IsHeir(HEIR) && IsUsurper(USURPER)
  {
    BidOffers(10, 1000, [COIN], [MADE]);
    BidOffers(2, 1000, [MADE], [DEEP]);
    BidOffers(1, 1_000_000_000, [COIN, DEEP], [MADE]);
  }

  lemma ElderEnters(c: Candidate) returns (one: Pool)
    requires IsElder(c)
    ensures Reached(one, CFG) && one.items == map[10 := Root(c, 0)]
    ensures Looks(one, map[COIN := 10], map[MADE := 10], map[], map[], 1_000_000, 1)
  {
    EmptyReached(CFG);
    one := Alone(EMPTY, c, CHAIN, CFG, COIN, map[], map[], 0, 0);
  }

  ghost predicate TwoItems(p: Pool) {
    && p.items.Keys == {10, 2} && p.items[10].fee == 1000 && p.items[10].virtualCost == 1_000_000
    && p.items[10].removals == [COIN] && p.items[2].depth == 1
  }

  ghost predicate LooksTwo(two: Pool) {
    && TwoItems(two)
    && Looks(two, map[COIN := 10, MADE := 2], map[MADE := 10, DEEP := 2], map[2 := {10}], map[10 := {2}], 2_000_000, 2)
  }

  lemma HeirItems(a: Candidate, c: Candidate, items: map<Id, Item>)
    requires IsElder(a) && IsHeir(c) && Alike(items, map[10 := Root(a, 0)][2 := ChildOf(c, 0, Root(a, 0))])
    ensures items.Keys == {10, 2} && items[10].fee == 1000 && items[10].virtualCost == 1_000_000
    ensures items[10].removals == [COIN] && items[2].depth == 1
  {
    AlikeItem(items, map[10 := Root(a, 0)][2 := ChildOf(c, 0, Root(a, 0))], 10);
    AlikeItem(items, map[10 := Root(a, 0)][2 := ChildOf(c, 0, Root(a, 0))], 2);
  }

  lemma HeirEnters(a: Candidate, one: Pool, c: Candidate) returns (two: Pool)
    requires IsElder(a) && IsHeir(c) && Reached(one, CFG) && one.items == map[10 := Root(a, 0)]
    requires Looks(one, map[COIN := 10], map[MADE := 10], map[], map[], 1_000_000, 1)
    ensures Reached(two, CFG) && LooksTwo(two)
  {
    two := Under(one, c, CHAIN, CFG, 10, MADE, map[COIN := 10], map[MADE := 10], 1_000_000, 1);
    FirstEdge(10, 2);
    HeirItems(a, c, two.items);
  }

  lemma UsurperConflicts(two: Pool, c: Candidate)
    requires IsUsurper(c) && two.coinIndex == map[COIN := 10, MADE := 2]
    ensures Conflicts(two, c) == [10] && Elems([10]) == {10}
  {
    var index, coins := two.coinIndex, c.removals;
    assert Shared(two.dedup.index, c.dedupKeys) == {};
    assert coins[..1] == [COIN] && [COIN][..0] == [] && coins[1] == DEEP;
    assert ConflictIds(index, [COIN][..0], {}) == [];
    assert ConflictIds(index, [COIN], {}) == [10];
    assert ConflictIds(index, coins, {}) == [10];
  }

  lemma UsurperParents(two: Pool, c: Candidate)
    requires IsUsurper(c) && two.mempoolCoins == map[MADE := 10, DEEP := 2]
    ensures ParentsOf(two, c, CHAIN) == {2} && Missing(two.mempoolCoins, CHAIN.onChain, c.removals).None?
  {
    assert DEEP in c.removals;
    MissingIff(two.mempoolCoins, CHAIN.onChain, c.removals);
  }

  lemma UsurperRates()
    ensures FpcScaled(1_000_000_000, 2_000_000) == 500_000_000_000_000 && FpcScaled(1000, 1_000_000) == 1_000_000_000
  {
  }

  lemma UsurperWins(two: Pool, c: Candidate)
    requires IsUsurper(c) && TwoItems(two)
    ensures Verdict(two.items, {10}, c.removals, c.fee, c.Rate(), CFG.minBump).None?
  {
    OneSum(Fees(two.items), 10);
    OneSum(Costs(two.items), 10);
    UsurperRates();
    assert Superset(two.items, {10}, c.removals);
  }

  lemma UsurperDepth(two: Pool)
    requires LooksTwo(two)
    ensures DepthOver(DepthOf(two.items), {2}) == 2 && Reach(two.dependencies, {}, {2}) <= {2, 10}
  {
    OneDepth(two.items, 2);
    ReachLeast(two.dependencies, {}, {2}, {2, 10});
  }

  lemma UsurperPasses(two: Pool, c: Candidate)
    requires IsUsurper(c) && CoinsTrue(two) && LooksTwo(two)
    ensures Refusal(two, c, CHAIN, CFG).None?
  {
    UsurperConflicts(two, c);
    UsurperParents(two, c);
    UsurperWins(two, c);
    NoObjectionWhen(two, c, CFG, [10], {10});
    UsurperDepth(two);
    PassesWhen(two, c, CHAIN, CFG, {2});
  }

  lemma UsurperSweeps(two: Pool, c: Candidate)
    requires IsUsurper(c) && two.coinIndex == map[COIN := 10, MADE := 2] && two.items.Keys == {10, 2} && two.dependents == map[10 := {2}]
    ensures Replaced(two, c, [2, 10])
  {
    UsurperConflicts(two, c);
    var ids: seq<Id> := [2, 10];
    ReachLeast(two.dependents, {}, {10}, {2, 10});
    ReachCovers(two.dependents, {}, {10});
    assert 2 in Succ(two.dependents, 10);
    assert Elems(ids) == {2, 10} && ids[..0] == [] && ids[..1] == [2] && Elems([2]) == {2};
  }

  const OUST: Displaced := Displaced([2, 10], NO_EVICTION)

  lemma UsurperFits(two: Pool, c: Candidate)
    requires IsUsurper(c) && CoinsTrue(two) && two.totalCost == 2_000_000
    ensures var q := RemoveSeq(two, [2, 10]);
      Gone(OUST) == [2, 10] && Fits(q, Built(two, q, c, CHAIN).virtualCost, CFG.maxTotalCost)
  {
    RemoveSeqShrinks(two, [2, 10]);
    BuiltFields(two, RemoveSeq(two, [2, 10]), c, CHAIN);
    assert Gone(OUST) == [2, 10];
  }

  ghost function Usurped(two: Pool, c: Candidate): Pool
    requires CoinsTrue(two)
  {
    Admit(RemoveSeq(two, [2, 10]), Built(two, RemoveSeq(two, [2, 10]), c, CHAIN))
  }

  lemma UsurperCommits(two: Pool, c: Candidate)
    requires IsUsurper(c) && CoinsTrue(two) && 1 !in two.items && two.totalCost == 2_000_000
    requires Refusal(two, c, CHAIN, CFG).None? && Replaced(two, c, [2, 10])
    ensures Commits(two, c, CHAIN, CFG, OUST, Usurped(two, c), None)
  {
    UsurperFits(two, c);
    assert Replaces(two, c, CHAIN, CFG, OUST, true);
  }

  /** The parent is swept away with the conflict above it, and the newcomer comes in without it. */
  lemma UsurperEnters(two: Pool, c: Candidate)
    requires IsUsurper(c) && Reached(two, CFG) && CoinsTrue(two) && LooksTwo(two)
    ensures Answers(two, c, CHAIN, CFG, OUST, Usurped(two, c), None) && Reached(Usurped(two, c), CFG)
  {
    UsurperPasses(two, c);
    UsurperSweeps(two, c);
    UsurperCommits(two, c);
    AnswerReached(two, c, CHAIN, CFG, OUST, Usurped(two, c), None);
  }

  ghost predicate LooksThree(three: Pool) {
    && three.items.Keys == {1} && three.items[1].dependsOn == {2} && three.items[1].depth == 2
    && MADE in three.mempoolCoins && three.mempoolCoins[MADE] == 1 && three.totalSpends <= 4
  }

  lemma UsurperItem(two: Pool, q: Pool, c: Candidate)
    requires IsUsurper(c) && CoinsTrue(two) && LooksTwo(two)
    ensures Built(two, q, c, CHAIN).dependsOn == {2} && Built(two, q, c, CHAIN).depth == 2
  {
    BuiltFields(two, q, c, CHAIN);
    UsurperParents(two, c);
    UsurperDepth(two);
  }

  lemma AloneAfter(q: Pool, item: Item)
    requires q.items.Keys == {} && item.id == 1 && item.additions == [MADE]
    ensures var r := Admit(q, item);
      && r.items.Keys == {1} && r.items[1].dependsOn == item.dependsOn && r.items[1].depth == item.depth
      && MADE in r.mempoolCoins && r.mempoolCoins[MADE] == 1
  {
    AdmitItems(q, item);
    AlikeItem(Admit(q, item).items, q.items[1 := item], 1);
    OwnedOne(MADE, 1);
    assert Admit(q, item).mempoolCoins == q.mempoolCoins + Owned([MADE], 1);
  }

  lemma UsurperLooks(two: Pool, c: Candidate)
    requires IsUsurper(c) && CoinsTrue(two) && LooksTwo(two)
    ensures LooksThree(Usurped(two, c))
  {
    var q := RemoveSeq(two, [2, 10]);
    UsurperItem(two, q, c);
    BuiltFields(two, q, c, CHAIN);
    RemoveSeqKeys(two, [2, 10]);
    assert Elems([2, 10]) == {2, 10};
    AloneAfter(q, Built(two, q, c, CHAIN));
    RemoveSeqShrinks(two, [2, 10]);
    AdmitTotals(q, Built(two, q, c, CHAIN));
  }

  /** A bundle may replace its own parent and stay, unminable: in this reached state its only parent is gone. */
  lemma UsurperOrphaned() returns (two: Pool, three: Pool)
    ensures Answers(two, USURPER, CHAIN, CFG, OUST, three, None) && Reached(three, CFG) && LooksThree(three)
  {
    Bids();
    var one := ElderEnters(ELDER);
    two := HeirEnters(ELDER, one, HEIR);
    ReachedCoins(two, CFG);
    three := Usurped(two, USURPER);
    UsurperEnters(two, USURPER);
    UsurperLooks(two, USURPER);
  }

  lemma CycleWhen(p: Pool, c: Candidate, v: Chainview, cfg: Config, parents: set<Id>)
    requires CoinsTrue(p) && parents == ParentsOf(p, c, v) && Missing(p.mempoolCoins, v.onChain, c.removals).None?
    requires SatAdd(p.totalSpends, c.numSpends) <= cfg.maxSpends && DepthOver(DepthOf(p.items), parents) <= cfg.maxDepth
    requires c.id in Reach(p.dependencies, {}, parents)
    ensures Refusal(p, c, v, cfg) == Some(DependencyCycle)
  {
  }

  lemma ThreeCycle(three: Pool)
    requires Edged(three) && LooksThree(three)
    ensures 2 in Reach(three.dependencies, {}, {1}) && DepthOver(DepthOf(three.items), {1}) == 3
  {
    OneDepth(three.items, 1);
    SuccDependencies(three, 1);
    ReachCovers(three.dependencies, {}, {1});
    assert 2 in Succ(three.dependencies, 1);
  }

  lemma HeirReturns(three: Pool, c: Candidate)
    requires IsHeir(c) && CoinsTrue(three) && Edged(three) && LooksThree(three)
    ensures Commits(three, c, CHAIN, CFG, NOBODY, three, Some(DependencyCycle))
  {
    OneCreator(three, c, CHAIN, 1);
    ThreeCycle(three);
    CycleWhen(three, c, CHAIN, CFG, {1});
  }

  /**
   * The lost parent comes back as it was, and is refused for a cycle: the creator of its coin names it as a
   * parent. Four submissions into the empty pool lead here, each with records of one coin that is on chain.
   */
  lemma CycleCheckFires() returns (three: Pool)
    ensures HEIR.id !in three.items && Answers(three, HEIR, CHAIN, CFG, NOBODY, three, Some(DependencyCycle))
  {
    var two;
    two, three := UsurperOrphaned();
    Bids();
    ReachedSet(three, CFG);
    HeirReturns(three, HEIR);
  }

  // ── With dedup on, a shared coin can drop out of the index while it is still being spent ──

  /** Removing an item drops every coin it spends from the index, whoever else spends it. */
  lemma RemovalForgetsCoins(p: Pool, a: Id, b: Id, c: CoinId)
    requires a in p.items && b in p.items && a != b && c in p.items[a].removals && c in p.items[b].removals
    ensures c !in Remove(p, b).coinIndex
    ensures a in Remove(p, b).items && c in Remove(p, b).items[a].removals
    ensures !IndexFull(Remove(p, b).coinIndex, Removals(Remove(p, b).items))
  {
    RemoveItems(p, b);
    AlikeFields(Remove(p, b).items, p.items - {b}, a);
    assert c in Elems(p.items[b].removals);
    assert c in Removals(Remove(p, b).items)[a];
  }

  /** Every coin an active item spends is indexed, under whatever owner. */
  ghost predicate Indexed(p: Pool) { forall b, c :: b in p.items && c in p.items[b].removals ==> c in p.coinIndex }

  /** An item can be removed without losing a spent coin from the index exactly when it shares no coin. */
  lemma RemovalKeepsIndexedIff(p: Pool, b: Id)
    requires Indexed(p) && b in p.items
    ensures Indexed(Remove(p, b)) <==> forall a, c :: a in p.items && a != b && c in p.items[a].removals ==> c !in p.items[b].removals
  {
    var r := Remove(p, b);
    RemoveItems(p, b);
    forall a | a in r.items ensures a in p.items && a != b && r.items[a].removals == p.items[a].removals {
      AlikeFields(r.items, p.items - {b}, a);
    }
    assert r.coinIndex == p.coinIndex - Elems(p.items[b].removals);
    forall a, c | a in p.items && a != b && c in p.items[a].removals && c in p.items[b].removals
      ensures a in r.items && c in r.items[a].removals && c !in r.coinIndex
    {
      RemovalForgetsCoins(p, a, b, c);
    }
  }

  // ── A parent removed on its own and admitted again does not get its children back ──

  /** An item removed on its own leaves nothing under its own name. */
  lemma RemovedChildless(p: Pool, q: Id)
    requires q in p.items
    ensures Succ(Remove(p, q).dependents, q) == {}
  {
  }

  lemma InsertedAlone(p: Pool, item: Item, c: Id)
    requires c in p.items && c != item.id && c !in Succ(p.dependents, item.id)
    ensures var r := Insert(p, item); r.items[c] == p.items[c] && item.id in r.items && c !in Succ(r.dependents, item.id)
  {
  }

  lemma ReturningParentUnlinked(p: Pool, q: Id, c: Id, item: Item)
    requires Edged(p) && q in p.items && c in Succ(p.dependents, q) && c != q && item.id == q
    ensures var r := Insert(Remove(p, q), item);
      && c in r.items && q in r.items[c].dependsOn && q in r.items
      && c !in Succ(r.dependents, q) && !EdgesFull(r)
  {
    var gone := Remove(p, q);
    ChildrenActive(p, q);
    RemoveItems(p, q);
    AlikeFields(gone.items, p.items - {q}, c);
    RemovedChildless(p, q);
    InsertedAlone(gone, item, c);
  }
}
