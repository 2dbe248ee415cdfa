/**
 * Conflict totals are plain u64 sums: once they wrap, a replacement pays next to nothing
 * (src/mempool/submit.rs:767-769). `Rbf.BumpPaidIff` says when they do not.
 */
module Bargains {
  import opened Prelude
  import opened Items
  import opened Sums
  import opened Graph
  import opened PoolState
  import opened PoolInvariants
  import opened Evictions
  import opened Rbf
  import opened Admission
  import opened Admitted
  import opened Scenarios

  const RICH: Candidate := Bid(1, U64_MAX, [COIN], [])
  const POOR: Candidate := Bid(2, 1, [OTHER], [])
  const REST: CoinId := Created(COIN, 0, TWO_64 - 10_000_000)
  const MEAN: Candidate := Bid(3, 10_000_000, [COIN, OTHER], [REST])
  const BOTH: Displaced := Displaced([1, 2], NO_EVICTION)

  ghost predicate IsRich(c: Candidate) { Offers(c, 1, U64_MAX, 1_000_000, [COIN], []) }
  ghost predicate IsPoor(c: Candidate) { Offers(c, 2, 1, 1_000_000, [OTHER], []) }
  ghost predicate IsMean(c: Candidate) { Offers(c, 3, 10_000_000, 2_000_000, [COIN, OTHER], [REST]) }

  lemma Bids()
    ensures IsRich(RICH) && IsPoor(POOR) && IsMean(MEAN)
  {
    BidOffers(1, U64_MAX, [COIN], []);
    BidOffers(2, 1, [OTHER], []);
    BidOffers(3, 10_000_000, [COIN, OTHER], [REST]);
  }

  ghost predicate Pair(p: Pool) {
    && p.items.Keys == {1, 2} && p.items[1].fee == U64_MAX && p.items[2].fee == 1
    && p.items[1].virtualCost == 1_000_000 && p.items[2].virtualCost == 1_000_000
    && p.items[1].removals == [COIN] && p.items[2].removals == [OTHER]
  }

  lemma PairEnters(a: Candidate, b: Candidate) returns (p: Pool)
    requires IsRich(a) && IsPoor(b)
    ensures Reached(p, CFG) && Pair(p)
    ensures Looks(p, map[COIN := 1, OTHER := 2], map[], map[], map[], 2_000_000, 2)
  {
    EmptyReached(CFG);
    var one := Alone(EMPTY, a, CHAIN, CFG, COIN, map[], map[], 0, 0);
    p := Alone(one, b, CHAIN, CFG, OTHER, map[COIN := 1], map[], 1_000_000, 1);
  }

  lemma MeanConflicts(p: Pool, c: Candidate)
    requires IsMean(c) && p.coinIndex == map[COIN := 1, OTHER := 2]
    ensures Conflicts(p, c) == [1, 2] && Elems([1, 2]) == {1, 2}
  {
    var index, coins := p.coinIndex, c.removals;
    assert Shared(p.dedup.index, c.dedupKeys) == {};
    assert coins[..1] == [COIN] && [COIN][..0] == [] && coins[1] == OTHER;
    assert ConflictIds(index, [COIN][..0], {}) == [];
    assert ConflictIds(index, [COIN], {}) == [1];
    assert ConflictIds(index, coins, {}) == [1, 2];
  }

  lemma MeanRates()
    ensures FpcScaled(0, 2_000_000) == 0 && FpcScaled(10_000_000, 2_000_000) == 5_000_000_000_000
  {
  }

  /** The two fees add up to 2^64, which is zero. */
  lemma MeanWins(p: Pool, c: Candidate)
    requires IsMean(c) && Pair(p)
    ensures {1, 2} <= p.items.Keys && Sum(Fees(p.items), {1, 2}) == TWO_64
    ensures Verdict(p.items, {1, 2}, c.removals, c.fee, c.Rate(), CFG.minBump).None?
  {
    TwoSum(Fees(p.items), 1, 2);
    TwoSum(Costs(p.items), 1, 2);
    MeanRates();
    assert Wrap(Sum(Fees(p.items), {1, 2})) == 0;
    assert Superset(p.items, {1, 2}, c.removals);
  }

  lemma MeanPasses(p: Pool, c: Candidate)
    requires IsMean(c) && CoinsTrue(p) && Pair(p) && Looks(p, map[COIN := 1, OTHER := 2], map[], map[], map[], 2_000_000, 2)
    ensures Refusal(p, c, CHAIN, CFG).None?
  {
    MeanConflicts(p, c);
    MeanWins(p, c);
    assert Elems(c.removals) == {COIN, OTHER};
    RootFacts(p, c, CHAIN);
    NoObjectionWhen(p, c, CFG, [1, 2], {1, 2});
    ReachLeast(p.dependencies, {}, {}, {});
    PassesWhen(p, c, CHAIN, CFG, {});
  }

  lemma MeanSweeps(p: Pool, c: Candidate)
    requires IsMean(c) && Pair(p) && p.coinIndex == map[COIN := 1, OTHER := 2] && p.dependents == map[]
    ensures Replaced(p, c, [1, 2])
  {
    MeanConflicts(p, c);
    ReachLeast(p.dependents, {}, {1, 2}, {1, 2});
    ReachCovers(p.dependents, {}, {1, 2});
  }

  ghost function Meanly(p: Pool, c: Candidate): Pool
    requires CoinsTrue(p)
  {
    Admit(RemoveSeq(p, [1, 2]), Built(p, RemoveSeq(p, [1, 2]), c, CHAIN))
  }

  lemma MeanFits(p: Pool, c: Candidate)
    requires IsMean(c) && CoinsTrue(p) && p.totalCost == 2_000_000
    ensures var q := RemoveSeq(p, [1, 2]);
      Gone(BOTH) == [1, 2] && Fits(q, Built(p, q, c, CHAIN).virtualCost, CFG.maxTotalCost)
  {
    RemoveSeqShrinks(p, [1, 2]);
    BuiltFields(p, RemoveSeq(p, [1, 2]), c, CHAIN);
    assert Gone(BOTH) == [1, 2];
  }

  lemma MeanCommits(p: Pool, c: Candidate)
    requires IsMean(c) && CoinsTrue(p) && 3 !in p.items && p.totalCost == 2_000_000
    requires Refusal(p, c, CHAIN, CFG).None? && Replaced(p, c, [1, 2])
    ensures Commits(p, c, CHAIN, CFG, BOTH, Meanly(p, c), None)
  {
    MeanFits(p, c);
    assert Replaces(p, c, CHAIN, CFG, BOTH, true);
  }

  /** Ten million pay for replacing two bundles whose fees together are 2^64. */
  lemma WrappedTotalsMislead() returns (p: Pool, r: Pool)
    ensures Answers(p, MEAN, CHAIN, CFG, BOTH, r, None) && Conflicts(p, MEAN) == [1, 2]
    ensures {1, 2} <= p.items.Keys && MEAN.fee == 10_000_000 < TWO_64 == Sum(Fees(p.items), {1, 2})
  {
    Bids();
    p := PairEnters(RICH, POOR);
    ReachedCoins(p, CFG);
    MeanPasses(p, MEAN);
    MeanSweeps(p, MEAN);
    MeanCommits(p, MEAN);
    r := Meanly(p, MEAN);
    MeanConflicts(p, MEAN);
    MeanWins(p, MEAN);
  }
}
