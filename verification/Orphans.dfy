/**
 * Making room takes the cheapest item alone, not its subtree (src/pools/active.rs:378-386): a poor parent of a
 * richer child falls first and leaves the child behind. `Sparing.OrphansNobodyIff` says when that cannot happen.
 */
module Orphans {
  import opened Prelude
  import opened Items
  import opened Graph
  import opened Sorting
  import opened PoolState
  import opened PoolInvariants
  import opened Evictions
  import opened Admission
  import opened Admitted
  import opened Scenarios
  import Scores

  const SMALL: Config := Config(2_000_000, 100, 25, 10_000_000, 100)
  const GIFT: CoinId := Created(COIN, 0, 99)

  const DONOR: Candidate := Bid(1, 1, [COIN], [GIFT])
  const TAKER: Candidate := Bid(2, 99, [GIFT], [])
  const MIDDLE: Candidate := Bid(3, 70, [OTHER], [])

  ghost predicate IsDonor(c: Candidate) { Offers(c, 1, 1, 1_000_000, [COIN], [GIFT]) }
  ghost predicate IsTaker(c: Candidate) { Offers(c, 2, 99, 1_000_000, [GIFT], []) }
  ghost predicate IsMiddle(c: Candidate) { Offers(c, 3, 70, 1_000_000, [OTHER], []) }

  lemma Bids()
    ensures IsDonor(DONOR) && IsTaker(TAKER) && IsMiddle(MIDDLE)
  {
    BidOffers(1, 1, [COIN], [GIFT]);
    BidOffers(2, 99, [GIFT], []);
    BidOffers(3, 70, [OTHER], []);
  }

  lemma Rates()
    ensures FpcScaled(1, 1_000_000) == 1_000_000 && FpcScaled(99, 1_000_000) == 99_000_000
    ensures FpcScaled(100, 2_000_000) == 50_000_000 && FpcScaled(70, 1_000_000) == 70_000_000
  {
  }

  ghost predicate OneItem(p: Pool) {
    && p.items.Keys == {1} && p.items[1].dependsOn == {} && p.items[1].depth == 0 && p.items[1].assertBeforeHeight.None?
    && p.items[1].packageFee == 1 && p.items[1].packageVirtualCost == 1_000_000 && p.items[1].virtualCost == 1_000_000
    && p.items[1].id == 1 && p.items[1].descendantScore == 1_000_000
  }

  lemma DonorEnters(c: Candidate) returns (one: Pool)
    requires IsDonor(c)
    ensures Reached(one, SMALL) && OneItem(one)
    ensures Looks(one, map[COIN := 1], map[GIFT := 1], map[], map[], 1_000_000, 1)
  {
    EmptyReached(SMALL);
    Rates();
    one := Alone(EMPTY, c, CHAIN, SMALL, COIN, map[], map[], 0, 0);
  }

  lemma TakerBuilt(c: Candidate, one: Pool)
    requires IsTaker(c) && OneItem(one)
    ensures var item := ChildOf(c, 0, one.items[1]);
      && item.id == 2 && item.descendantScore == 99_000_000 && item.packageFpc == 50_000_000 && item.virtualCost == 1_000_000
      && item.dependsOn == {1} && item.assertBeforeHeight.None?
  {
    Rates();
  }

  /** Parent and child: the parent is worth the package, the child more. */
  ghost predicate Pair(p: Pool) {
    && p.items.Keys == {1, 2} && p.items[1].descendantScore <= 50_000_000 && p.items[2].descendantScore == 99_000_000
    && p.items[1].dependsOn == {} && p.items[2].dependsOn == {1} && p.items[1].virtualCost == 1_000_000
    && p.items[1].assertBeforeHeight.None? && p.items[2].assertBeforeHeight.None?
  }

  lemma PairScores(one: Pool, item: Item)
    requires OneItem(one) && one.dependencies == map[] && item.id == 2 && item.dependsOn == {1} && item.packageFpc == 50_000_000
    ensures var r := Admit(one, item).items;
      1 in r && 2 in r && r[1].descendantScore <= 50_000_000 && r[2].descendantScore == item.descendantScore
  {
    var q := Insert(one, item);
    Scores.AdmitStore(one, item);
    FirstEdge(1, 2);
    assert q.dependencies == map[2 := {1}];
    ReachLeast(q.dependencies, Blocking(q.items, q.dependencies, 50_000_000), {1}, {1});
    assert Lifted(q.items, q.dependencies, 2) <= {1};
  }

  lemma PairLooks(one: Pool, item: Item, two: Pool)
    requires OneItem(one) && one.dependencies == map[] && two == Admit(one, item) && Alike(two.items, one.items[2 := item])
    requires item.id == 2 && item.descendantScore == 99_000_000 && item.packageFpc == 50_000_000
    requires item.dependsOn == {1} && item.assertBeforeHeight.None?
    ensures Pair(two)
  {
    PairScores(one, item);
    AlikeItem(two.items, one.items[2 := item], 1);
    AlikeItem(two.items, one.items[2 := item], 2);
  }

  lemma TakerEnters(one: Pool, c: Candidate) returns (two: Pool)
    requires IsTaker(c) && Reached(one, SMALL) && OneItem(one)
    requires Looks(one, map[COIN := 1], map[GIFT := 1], map[], map[], 1_000_000, 1)
    ensures Reached(two, SMALL) && Pair(two)
    ensures Looks(two, map[COIN := 1, GIFT := 2], map[GIFT := 1], two.dependencies, two.dependents, 2_000_000, 2)
  {
    two := Under(one, c, CHAIN, SMALL, 1, GIFT, map[COIN := 1], map[GIFT := 1], 1_000_000, 1);
    TakerBuilt(c, one);
    PairLooks(one, ChildOf(c, 0, one.items[1]), two);
  }

  // ── The newcomer makes room ──

  const SQUEEZE: Eviction := Eviction([1, 2], 1, true, [], 0, true)
  const OUSTED: Displaced := Displaced([], SQUEEZE)

  lemma PairOrder(p: Pool)
    requires Pair(p)
    ensures Elems([1, 2]) == p.items.Keys && SortedBy(ScoreKeys(p.items), [1, 2]) && Shielded(p.items, 0, SMALL.protection) == {}
  {
    LessOne(99_000_000, p.items[1].descendantScore);
    assert ScoreKeys(p.items)[1] == [p.items[1].descendantScore] && ScoreKeys(p.items)[2] == [99_000_000];
    assert Elems([1, 2]) == {1, 2};
  }

  lemma DonorOut(p: Pool)
    requires Pair(p) && p.totalCost == 2_000_000
    ensures RemoveSeq(p, [1]).totalCost == 1_000_000
  {
    assert [1][..0] == [] && RemoveSeq(p, [1][..0]) == p;
    RemoveItems(p, 1);
  }

  lemma PairSqueeze(p: Pool)
    requires Pair(p) && p.totalCost == 2_000_000
    ensures Squeezed(p, [1, 2], 1, 70_000_000, 1_000_000, 2_000_000, true)
    ensures Fits(RemoveSeq(p, [1]), 1_000_000, 2_000_000) && !Fits(p, 1_000_000, 2_000_000)
  {
    var xs: seq<Id> := [1, 2];
    PairOrder(p);
    DonorOut(p);
    assert xs[..0] == [] && RemoveSeq(p, xs[..0]) == p && xs[..1] == [1];
  }

  lemma PairEvicted(p: Pool, item: Item)
    requires Pair(p) && p.totalCost == 2_000_000 && item.fpc == 70_000_000 && item.virtualCost == 1_000_000
    ensures EvictedFor(p, item, 2_000_000, 0, SMALL.protection, SQUEEZE, true) && !Fits(p, item.virtualCost, 2_000_000)
  {
    PairSqueeze(p);
    PairOrder(p);
    assert First(SQUEEZE) == [1];
  }

  lemma MiddlePasses(p: Pool, c: Candidate)
    requires IsMiddle(c) && CoinsTrue(p) && p.items.Keys == {1, 2} && p.coinIndex == map[COIN := 1, GIFT := 2] && p.totalSpends == 2
    ensures Refusal(p, c, CHAIN, SMALL).None? && Built(p, p, c, CHAIN) == Root(c, 0) && Replaced(p, c, [])
  {
    OwnedOne(OTHER, 3);
    FreshCoins(p, c);
    RootFacts(p, c, CHAIN);
    ReachLeast(p.dependencies, {}, {}, {});
    ReachLeast(p.dependents, {}, {}, {});
    ElemsEmpty(Conflicts(p, c));
    ElemsEmpty<Id>([]);
  }

  /** Somebody makes room, and the newcomer comes in. */
  lemma EntersWhen(p: Pool, c: Candidate, v: Chainview, cfg: Config, item: Item, w: Eviction)
    requires CoinsTrue(p) && c.id !in p.items && Refusal(p, c, v, cfg).None? && Replaced(p, c, []) && Built(p, p, c, v) == item
    requires !Fits(p, item.virtualCost, cfg.maxTotalCost) && v.policyAccepts
    requires EvictedFor(p, item, cfg.maxTotalCost, v.height, cfg.protection, w, true)
    ensures Commits(p, c, v, cfg, Displaced([], w), Admit(RemoveSeq(p, Evicted(w)), item), None)
  {
    MakesRoom(p, c, v, cfg, item, w, true);
    Concludes(p, c, v, cfg, Displaced([], w), Admit(RemoveSeq(p, Evicted(w)), item), None);
  }

  lemma OnlyDonor()
    ensures Evicted(SQUEEZE) == [1] && OUSTED == Displaced([], SQUEEZE)
  {
  }

  lemma MiddleEnters(p: Pool, c: Candidate, item: Item) returns (r: Pool)
    requires c.id == 3 && CoinsTrue(p) && Pair(p) && p.totalCost == 2_000_000 && item.fpc == 70_000_000 && item.virtualCost == 1_000_000
    requires Refusal(p, c, CHAIN, SMALL).None? && Built(p, p, c, CHAIN) == item && Replaced(p, c, [])
    ensures Commits(p, c, CHAIN, SMALL, OUSTED, r, None) && r == Admit(RemoveSeq(p, [1]), item)
  {
    PairEvicted(p, item);
    EntersWhen(p, c, CHAIN, SMALL, item, SQUEEZE);
    OnlyDonor();
    r := Admit(RemoveSeq(p, [1]), item);
  }

  lemma ChildLeft(p: Pool, item: Item)
    requires Pair(p) && item.id == 3
    ensures var r := Admit(RemoveSeq(p, [1]), item).items; 2 in r && r[2].dependsOn == {1} && 1 !in r
  {
    var q := RemoveSeq(p, [1]);
    RemoveSeqItems(p, [1]);
    assert Elems([1]) == {1};
    AlikeItem(q.items, p.items - {1}, 2);
    AdmitItems(q, item);
    AlikeItem(Admit(q, item).items, q.items[3 := item], 2);
  }

  lemma MiddleBuilt(c: Candidate)
    requires IsMiddle(c)
    ensures Root(c, 0).fpc == 70_000_000 && Root(c, 0).virtualCost == 1_000_000 && Root(c, 0).id == 3
  {
    Rates();
  }

  /** Three submissions from the empty pool: the third squeezes out the first, and the second stays without its parent. */
  lemma ChildOutlivesParent() returns (two: Pool, three: Pool)
    ensures NoOrphans(two.items) && Answers(two, MIDDLE, CHAIN, SMALL, OUSTED, three, None)
    ensures 2 in three.items && three.items[2].dependsOn == {1} && 1 !in three.items
  {
    Bids();
    var one := DonorEnters(DONOR);
    two := TakerEnters(one, TAKER);
    ReachedCoins(two, SMALL);
    three := ThirdEnters(two, MIDDLE);
    PairKin(two);
  }

  lemma PairKin(p: Pool)
    requires Pair(p)
    ensures NoOrphans(p.items)
  {
  }

  lemma ThirdEnters(two: Pool, c: Candidate) returns (three: Pool)
    requires IsMiddle(c) && CoinsTrue(two) && Pair(two)
    requires Looks(two, map[COIN := 1, GIFT := 2], map[GIFT := 1], two.dependencies, two.dependents, 2_000_000, 2)
    ensures Commits(two, c, CHAIN, SMALL, OUSTED, three, None)
    ensures 2 in three.items && three.items[2].dependsOn == {1} && 1 !in three.items
  {
    MiddlePasses(two, c);
    MiddleBuilt(c);
    three := MiddleEnters(two, c, Root(c, 0));
    ChildLeft(two, Root(c, 0));
  }
}
