/** A score that misses a descendant: grandparent, well-paying parent, child (src/pools/active.rs:272-322). */
module LostScores {
  import opened Prelude
  import opened Items
  import opened Graph
  import opened PoolState
  import opened PoolInvariants
  import opened Admission
  import opened Scenarios
  import opened Scores

  const TWENTY: CoinId := Created(COIN, 0, 20)
  const ELEVEN: CoinId := Created(TWENTY, 0, 11)

  const GRAN: Candidate := Bid(1, 1, [COIN], [TWENTY])
  const PARENT: Candidate := Bid(2, 9, [TWENTY], [ELEVEN])
  const CHILD: Candidate := Bid(3, 11, [ELEVEN], [])

  ghost predicate IsGran(c: Candidate) { Offers(c, 1, 1, 1_000_000, [COIN], [TWENTY]) }
  ghost predicate IsParent(c: Candidate) { Offers(c, 2, 9, 1_000_000, [TWENTY], [ELEVEN]) }
  ghost predicate IsChild(c: Candidate) { Offers(c, 3, 11, 1_000_000, [ELEVEN], []) }

  lemma Bids()
    ensures IsGran(GRAN) && IsParent(PARENT) && IsChild(CHILD)
  {
    BidOffers(1, 1, [COIN], [TWENTY]);
    BidOffers(2, 9, [TWENTY], [ELEVEN]);
    BidOffers(3, 11, [ELEVEN], []);
  }

  lemma Rates()
    ensures FpcScaled(1, 1_000_000) == 1_000_000 && FpcScaled(9, 1_000_000) == 9_000_000
    ensures FpcScaled(10, 2_000_000) == 5_000_000 && FpcScaled(21, 3_000_000) == 7_000_000
  {
  }

  ghost predicate OneItem(p: Pool) {
    && p.items.Keys == {1} && p.items[1].id == 1 && p.items[1].dependsOn == {} && p.items[1].depth == 0
    && p.items[1].packageFee == 1 && p.items[1].packageVirtualCost == 1_000_000
    && p.items[1].descendantScore == 1_000_000
  }

  lemma GranEnters(c: Candidate) returns (one: Pool)
    requires IsGran(c)
    ensures Reached(one, CFG) && OneItem(one)
    ensures Looks(one, map[COIN := 1], map[TWENTY := 1], map[], map[], 1_000_000, 1)
  {
    EmptyReached(CFG);
    Rates();
    one := Alone(EMPTY, c, CHAIN, CFG, COIN, map[], map[], 0, 0);
  }

  /** The parent as it is built, and how it looks in the pool. */
  lemma ParentBuilt(c: Candidate, one: Pool)
    requires IsParent(c) && OneItem(one)
    ensures var item := ChildOf(c, 0, one.items[1]);
      && item.id == 2 && item.descendantScore == 9_000_000 && item.packageFpc == 5_000_000
      && item.packageFee == 10 && item.packageVirtualCost == 2_000_000 && item.depth == 1
  {
    Rates();
  }

  lemma ParentEnters(one: Pool, c: Candidate) returns (two: Pool)
    requires IsParent(c) && Reached(one, CFG) && OneItem(one)
    requires Looks(one, map[COIN := 1], map[TWENTY := 1], map[], map[], 1_000_000, 1)
    ensures Reached(two, CFG) && two == Admit(one, ChildOf(c, 0, one.items[1]))
    ensures Alike(two.items, one.items[2 := ChildOf(c, 0, one.items[1])]) && ChildOf(c, 0, one.items[1]).dependsOn == {1}
    ensures Looks(two, map[COIN := 1, TWENTY := 2], map[TWENTY := 1, ELEVEN := 2], map[2 := {1}], two.dependents, 2_000_000, 2)
  {
    two := Under(one, c, CHAIN, CFG, 1, TWENTY, map[COIN := 1], map[TWENTY := 1], 1_000_000, 1);
    FirstEdge(1, 2);
  }

  ghost predicate TwoItems(p: Pool) {
    && p.items.Keys == {1, 2} && p.items[1].dependsOn == {} && p.items[1].descendantScore <= 5_000_000
    && p.items[2].id == 2 && p.items[2].dependsOn == {1} && p.items[2].depth == 1
    && p.items[2].packageFee == 10 && p.items[2].packageVirtualCost == 2_000_000 && p.items[2].descendantScore == 9_000_000
  }

  /** At most the grandparent is lifted, to the package rate of the parent. */
  lemma ParentScores(one: Pool, item: Item)
    requires OneItem(one) && one.dependencies == map[] && item.id == 2 && item.dependsOn == {1} && item.packageFpc == 5_000_000
    ensures var r := Admit(one, item).items;
      1 in r && 2 in r && r[1].descendantScore <= 5_000_000 && r[2].descendantScore == item.descendantScore
  {
    var q := Insert(one, item);
    AdmitStore(one, item);
    assert Succ(one.dependencies, 2) + {1} == {1};
    assert q.dependencies == map[2 := {1}];
    ReachLeast(q.dependencies, Blocking(q.items, q.dependencies, 5_000_000), {1}, {1});
    assert Lifted(q.items, q.dependencies, 2) <= {1};
  }

  lemma ParentLooks(one: Pool, c: Candidate, two: Pool)
    requires IsParent(c) && OneItem(one) && one.dependencies == map[] && two == Admit(one, ChildOf(c, 0, one.items[1]))
    requires Alike(two.items, one.items[2 := ChildOf(c, 0, one.items[1])]) && ChildOf(c, 0, one.items[1]).dependsOn == {1}
    ensures TwoItems(two)
  {
    var item := ChildOf(c, 0, one.items[1]);
    ParentBuilt(c, one);
    ParentScores(one, item);
    AlikeItem(two.items, one.items[2 := item], 1);
    AlikeItem(two.items, one.items[2 := item], 2);
  }

  /** Before the child comes, every score covers every descendant. */
  lemma ParentsCovered(one: Pool, item: Item)
    requires Edged(one) && OneItem(one) && one.dependencies == map[] && item.id == 2 && item.dependsOn == {1} && item.packageFpc == 5_000_000
    ensures DescendantsCovered(Admit(one, item))
  {
    ReachLeast(one.dependencies, {}, {}, {});
    assert DescendantsCovered(one);
    ReachCovers(one.dependencies, Blocking(one.items, one.dependencies, 5_000_000), {1});
    ReachLeast(one.dependencies, {}, {1}, {1});
    DescendantsCoveredIff(one, item);
  }

  lemma ChildBuilt(c: Candidate, two: Pool)
    requires IsChild(c) && TwoItems(two)
    ensures ChildOf(c, 0, two.items[2]).id == 3 && ChildOf(c, 0, two.items[2]).packageFpc == 7_000_000
  {
    Rates();
  }

  lemma ChildEnters(two: Pool, c: Candidate) returns (three: Pool)
    requires IsChild(c) && Reached(two, CFG) && TwoItems(two)
    requires Looks(two, map[COIN := 1, TWENTY := 2], map[TWENTY := 1, ELEVEN := 2], map[2 := {1}], two.dependents, 2_000_000, 2)
    ensures Answers(two, c, CHAIN, CFG, NOBODY, three, None)
    ensures Reached(three, CFG) && three == Admit(two, ChildOf(c, 0, two.items[2])) && ChildOf(c, 0, two.items[2]).dependsOn == {2}
  {
    OwnedOne(ELEVEN, 3);
    ChildReached(two, c, CHAIN, CFG, 2);
    three := Under(two, c, CHAIN, CFG, 2, ELEVEN, map[COIN := 1, TWENTY := 2], map[TWENTY := 1, ELEVEN := 2], 2_000_000, 2);
  }

  lemma ChildHides(two: Pool, item: Item)
    requires TwoItems(two) && two.dependencies == map[2 := {1}] && item.dependsOn == {2} && item.packageFpc == 7_000_000
    ensures 1 in AncestorsOf(two, item) && 1 !in WouldLift(two, item)
  {
    var g := two.dependencies;
    ReachCovers(g, {}, {2});
    assert 1 in Succ(g, 2);
    assert 2 in Blocking(two.items, g, 7_000_000);
    ReachLeast(g, Blocking(two.items, g, 7_000_000), {2}, {});
  }

  /** An ancestor behind a higher score never hears of the newcomer. */
  lemma HiddenIsLost(p: Pool, item: Item, a: Id)
    requires Adoptable(p, item) && DescendantsCovered(p)
    requires a in p.items && a in AncestorsOf(p, item) && a !in WouldLift(p, item)
    requires p.items[a].descendantScore < item.packageFpc
    ensures !DescendantsCovered(Admit(p, item))
  {
    DescendantsCoveredIff(p, item);
    assert ScoreOf(p.items)[a] == p.items[a].descendantScore;
  }

  lemma ChildAdoptable(two: Pool, item: Item)
    requires Edged(two) && TwoItems(two) && item.id == 3 && item.dependsOn == {2}
    ensures Adoptable(two, item)
  {
  }

  lemma ReachedEdged(p: Pool)
    requires Reached(p, CFG)
    ensures Edged(p)
  {
    ReachedSet(p, CFG);
  }

  /**
   * The walk from the child stops at its well-paying parent; the grandparent never hears of the child's
   * package. Three submissions lead from the empty pool to this state.
   */
  lemma DescendantsNotAlwaysCovered() returns (two: Pool, three: Pool)
    ensures Reached(two, CFG) && DescendantsCovered(two)
    ensures Answers(two, CHILD, CHAIN, CFG, NOBODY, three, None) && Reached(three, CFG) && !DescendantsCovered(three)
  {
    Bids();
    var one := GranEnters(GRAN);
    two := ParentEnters(one, PARENT);
    ParentBuilt(PARENT, one);
    ParentLooks(one, PARENT, two);
    ReachedEdged(one);
    ParentsCovered(one, ChildOf(PARENT, 0, one.items[1]));
    three := ChildEnters(two, CHILD);
    ReachedEdged(two);
    ChildBuilt(CHILD, two);
    ChildAdoptable(two, ChildOf(CHILD, 0, two.items[2]));
    ChildHides(two, ChildOf(CHILD, 0, two.items[2]));
    HiddenIsLost(two, ChildOf(CHILD, 0, two.items[2]), 1);
  }
}
