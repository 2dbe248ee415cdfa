/** Refusals that cost somebody else their place, in both pools (src/mempool/submit.rs:560-571, 892-919). */
module Refusals {
  import opened Prelude
  import opened Items
  import opened Graph
  import opened Sorting
  import opened PoolState
  import opened PoolInvariants
  import opened Evictions
  import opened Rbf
  import opened Timelocks
  import opened Admission
  import opened Scenarios
  import PendingPools
  import Submissions

  // ── The active pool ──

  const THIRD: CoinId := Minted(2)
  const TIGHT: Config := Config(10_000_000, 100, 25, 10_000_000, 100)
  const CROWDS: Chainview := Chainview({COIN, OTHER, THIRD}, 0, true)

  const CHEAP: Candidate := Bid(1, 1, [COIN], [])
  const DEAR: Candidate := Bid(2, 900, [OTHER], []).(cost := 8_500_000)
  const PUSHY: Candidate := Bid(3, 250, [THIRD], []).(cost := 4_500_000)

  ghost predicate IsCheap(c: Candidate) { Offers(c, 1, 1, 1_000_000, [COIN], []) }
  ghost predicate IsDear(c: Candidate) { Offers(c, 2, 900, 9_000_000, [OTHER], []) }
  ghost predicate IsPushy(c: Candidate) { Offers(c, 3, 250, 5_000_000, [THIRD], []) }

  lemma Bids()
    ensures IsCheap(CHEAP) && IsDear(DEAR) && IsPushy(PUSHY)
  {
    BidOffers(1, 1, [COIN], []);
  }

  lemma Rates()
    ensures FpcScaled(1, 1_000_000) == 1_000_000 && FpcScaled(900, 9_000_000) == 100_000_000 && FpcScaled(250, 5_000_000) == 50_000_000
  {
  }

  ghost predicate Crowd(p: Pool) {
    && p.items.Keys == {1, 2} && p.items[1].descendantScore == 1_000_000 && p.items[2].descendantScore == 100_000_000
    && p.items[1].virtualCost == 1_000_000 && p.items[1].assertBeforeHeight.None? && p.items[2].assertBeforeHeight.None?
  }

  lemma CrowdEnters(a: Candidate, b: Candidate) returns (p: Pool)
    requires IsCheap(a) && IsDear(b)
    ensures Reached(p, TIGHT) && Crowd(p)
    ensures Looks(p, map[COIN := 1, OTHER := 2], map[], map[], map[], 10_000_000, 2)
  {
    EmptyReached(TIGHT);
    var calm := Alone(EMPTY, a, CROWDS, TIGHT, COIN, map[], map[], 0, 0);
    p := Alone(calm, b, CROWDS, TIGHT, OTHER, map[COIN := 1], map[], 1_000_000, 1);
    Rates();
  }

  lemma CrowdOrder(p: Pool)
    requires Crowd(p)
    ensures Elems([1, 2]) == p.items.Keys && SortedBy(ScoreKeys(p.items), [1, 2]) && Shielded(p.items, 0, TIGHT.protection) == {}
  {
    LessOne(100_000_000, 1_000_000);
    assert ScoreKeys(p.items)[1] == [1_000_000] && ScoreKeys(p.items)[2] == [100_000_000];
    assert Elems([1, 2]) == {1, 2};
  }

  lemma CheapOnly(p: Pool)
    requires Crowd(p) && p.totalCost == 10_000_000
    ensures RemoveSeq(p, [1]) == Remove(p, 1) && Remove(p, 1).totalCost == 9_000_000 && 1 !in Remove(p, 1).items
  {
    assert [1][..0] == [] && RemoveSeq(p, [1][..0]) == p;
    RemoveItems(p, 1);
  }

  lemma CrowdSqueeze(p: Pool)
    requires Crowd(p) && p.totalCost == 10_000_000
    ensures Squeezed(p, [1, 2], 1, 50_000_000, 5_000_000, 10_000_000, false)
  {
    var xs: seq<Id> := [1, 2];
    CrowdOrder(p);
    CheapOnly(p);
    assert xs[..0] == [] && RemoveSeq(p, xs[..0]) == p;
    assert xs[..1] == [1];
  }

  lemma RefusedWhen(p: Pool, item: Item, max: U64, protection: U64, w: Eviction)
    requires Squeezed(p, w.exposed, w.k, item.fpc, item.virtualCost, max, false) && item.virtualCost <= max
    requires !w.exposedOk && w.m == 0 && Elems(w.exposed) == p.items.Keys && Shielded(p.items, 0, protection) == {}
    ensures EvictedFor(p, item, max, 0, protection, w, false)
  {
  }

  lemma PushyPasses(p: Pool, c: Candidate)
    requires IsPushy(c) && CoinsTrue(p) && Looks(p, map[COIN := 1, OTHER := 2], map[], map[], map[], 10_000_000, 2)
    ensures Refusal(p, c, CROWDS, TIGHT).None? && Built(p, p, c, CROWDS) == Root(c, 0) && Replaced(p, c, [])
  {
    OwnedOne(THIRD, 3);
    FreshCoins(p, c);
    RootFacts(p, c, CROWDS);
    ReachLeast(p.dependencies, {}, {}, {});
    ReachLeast(p.dependents, {}, {}, {});
    ElemsEmpty(Conflicts(p, c));
    ElemsEmpty<Id>([]);
  }

  const SQUEEZE: Eviction := Eviction([1, 2], 1, false, [], 0, true)
  const PUSHED: Displaced := Displaced([], SQUEEZE)

  lemma PushyEvicts(p: Pool, item: Item)
    requires Crowd(p) && p.totalCost == 10_000_000 && item.fpc == 50_000_000 && item.virtualCost == 5_000_000
    ensures EvictedFor(p, item, TIGHT.maxTotalCost, 0, TIGHT.protection, SQUEEZE, false)
    ensures !Fits(p, item.virtualCost, TIGHT.maxTotalCost)
  {
    CrowdSqueeze(p);
    CrowdOrder(p);
    RefusedWhen(p, item, TIGHT.maxTotalCost, TIGHT.protection, SQUEEZE);
  }

  lemma FullWhen(p: Pool, c: Candidate, v: Chainview, cfg: Config, item: Item, w: Eviction)
    requires CoinsTrue(p) && c.id !in p.items && Refusal(p, c, v, cfg).None? && Replaced(p, c, []) && Built(p, p, c, v) == item
    requires !Fits(p, item.virtualCost, cfg.maxTotalCost)
    requires EvictedFor(p, item, cfg.maxTotalCost, v.height, cfg.protection, w, false)
    ensures Commits(p, c, v, cfg, Displaced([], w), RemoveSeq(p, Evicted(w)), Some(MempoolFull))
  {
    MakesRoom(p, c, v, cfg, item, w, false);
    Concludes(p, c, v, cfg, Displaced([], w), RemoveSeq(p, Evicted(w)), Some(MempoolFull));
  }

  lemma OnlyFirst()
    ensures Evicted(SQUEEZE) == [1] && PUSHED == Displaced([], SQUEEZE)
  {
  }

  lemma PushyItem(c: Candidate)
    requires IsPushy(c)
    ensures Root(c, 0).fpc == 50_000_000 && Root(c, 0).virtualCost == 5_000_000
  {
    Rates();
  }

  lemma PushyRefused(p: Pool, c: Candidate, item: Item)
    requires c.id == 3 && CoinsTrue(p) && Crowd(p) && p.totalCost == 10_000_000
    requires item.fpc == 50_000_000 && item.virtualCost == 5_000_000
    requires Refusal(p, c, CROWDS, TIGHT).None? && Built(p, p, c, CROWDS) == item && Replaced(p, c, [])
    ensures Commits(p, c, CROWDS, TIGHT, PUSHED, Remove(p, 1), Some(MempoolFull))
  {
    PushyEvicts(p, item);
    FullWhen(p, c, CROWDS, TIGHT, item, SQUEEZE);
    CheapOnly(p);
    OnlyFirst();
  }

  /** Two bundles have been admitted; a third is refused as the pool is full, and the first is gone. */
  lemma RefusalMayDisplace() returns (p: Pool)
    ensures Answers(p, PUSHY, CROWDS, TIGHT, PUSHED, Remove(p, 1), Some(MempoolFull))
    ensures 1 in p.items && 1 !in Remove(p, 1).items
  {
    Bids();
    p := CrowdEnters(CHEAP, DEAR);
    ReachedCoins(p, TIGHT);
    PushyPasses(p, PUSHY);
    PushyItem(PUSHY);
    PushyRefused(p, PUSHY, Root(PUSHY, 0));
    CheapOnly(p);
  }

  // ── The pending pool may lose an item to a newcomer it refuses ──

  const NOLOCKS: Conditions := Conditions(0, 0, None, None, [])
  const LATER: Window := Window(Some(9), None, None, None)
  const LIMITS: PendingPools.Limits := PendingPools.Limits(10, 1_000_000, 10_000_000)

  /** A validated bundle that spends `COIN`. */
  function Offer(fee: U64, cost: U64, additions: seq<CoinId>): Submissions.Validated {
    Submissions.Validated(fee, 0, cost, 1, [COIN], additions, NOLOCKS, None, [])
  }

  const HELD: Item := Submissions.PendingItem(1, Offer(1, 500_000, [Created(COIN, 0, 99_999_999)]), LATER, 0)
  const WINNER: Item := Submissions.PendingItem(2, Offer(100_000_000, 1_500_000, []), LATER, 0)

  ghost predicate Holds(s: PendingPools.Pending) {
    && s.items.Keys == {1} && s.index == map[COIN := 1]
    && s.items[1].fee == 1 && s.items[1].virtualCost == 1_000_000 && s.items[1].removals == [COIN] && s.cost == 1_000_000
  }

  lemma HeldEnters(item: Item) returns (s: PendingPools.Pending)
    requires IsHeld(item)
    ensures PendingPools.PendingSound(PendingPools.NOTHING)
    ensures PendingPools.Submitted(PendingPools.NOTHING, item, LIMITS) == (s, Ok(9))
    ensures PendingPools.PendingSound(s) && Holds(s)
  {
    assert Costs(PendingPools.NOTHING.items).Keys == {};
    ConflictIdsFacts(PendingPools.NOTHING.index, item.removals, {});
    ElemsEmpty(PendingPools.Blockers(PendingPools.NOTHING, item));
    OwnedOne(COIN, 1);
    s := PendingPools.PendingInsert(PendingPools.NOTHING, item);
    PendingPools.SubmittedKeeps(PendingPools.NOTHING, item, LIMITS);
  }

  lemma WinnerBlockers(s: PendingPools.Pending, item: Item)
    requires Holds(s) && item.removals == [COIN]
    ensures PendingPools.Blockers(s, item) == [1] && PendingPools.Cleared(s, item) == PendingPools.NOTHING
  {
    assert [COIN][..0] == [] && [1][..0] == [];
    assert ConflictIds(s.index, [COIN][..0], {}) == [];
    assert ConflictIds(s.index, [COIN], {}) == [1];
    assert PendingPools.PendingRemoveSeq(s, [1][..0]) == s;
    assert PendingPools.PendingRemoveSeq(s, [1]) == PendingPools.PendingRemove(s, 1);
    assert s.items - {1} == map[];
    OwnedOne(COIN, 1);
    assert s.index - {COIN} == map[];
  }

  lemma PendingRates()
    ensures FpcScaled(1, 1_000_000) == 1_000_000 && FpcScaled(100_000_000, 2_000_000) == 50_000_000_000_000
  {
  }

  lemma WinnerWins(s: PendingPools.Pending, item: Item)
    requires Holds(s) && item.removals == [COIN] && item.fee == 100_000_000 && item.fpc == FpcScaled(100_000_000, 2_000_000)
    ensures {1} <= s.items.Keys
    ensures Verdict(s.items, {1}, item.removals, item.fee, item.fpc, LIMITS.minBump).None?
  {
    OneSum(Fees(s.items), 1);
    OneSum(Costs(s.items), 1);
    PendingRates();
    assert Superset(s.items, {1}, item.removals);
  }

  lemma PendingFullWhen(s: PendingPools.Pending, item: Item, limits: PendingPools.Limits, ids: seq<Id>, who: set<Id>, cleared: PendingPools.Pending)
    requires PendingPools.PendingSound(s) && item.id !in s.items && PendingPools.Blockers(s, item) == ids && Elems(ids) == who <= s.items.Keys
    requires PendingPools.Cleared(s, item) == cleared && PendingPools.NoRoom(cleared, item, limits)
    requires Verdict(s.items, who, item.removals, item.fee, item.fpc, limits.minBump).None?
    ensures PendingPools.Submitted(s, item, limits) == (cleared, Err(PendingPoolFull))
  {
    assert PendingPools.Objection(s, item, limits).None?;
  }

  lemma TooCostly(item: Item)
    requires item.virtualCost == 2_000_000
    ensures PendingPools.NoRoom(PendingPools.NOTHING, item, LIMITS)
  {
  }

  ghost predicate IsHeld(item: Item) {
    item.id == 1 && item.fee == 1 && item.virtualCost == 1_000_000 && item.removals == [COIN] && item.assertHeight == Some(9)
  }

  ghost predicate IsWinner(item: Item) {
    && item.id == 2 && item.fee == 100_000_000 && item.virtualCost == 2_000_000 && item.removals == [COIN]
    && item.fpc == FpcScaled(100_000_000, 2_000_000)
  }

  lemma HeldAndWinner()
    ensures IsHeld(HELD) && IsWinner(WINNER)
  {
  }

  lemma WinnerLoses(s: PendingPools.Pending, item: Item)
    requires IsWinner(item) && PendingPools.PendingSound(s) && Holds(s)
    ensures PendingPools.Submitted(s, item, LIMITS) == (PendingPools.NOTHING, Err(PendingPoolFull))
  {
    WinnerBlockers(s, item);
    WinnerWins(s, item);
    assert Elems([1]) == {1};
    TooCostly(item);
    PendingFullWhen(s, item, LIMITS, [1], {1}, PendingPools.NOTHING);
  }

  /** One bundle waits; a better one for the same coin displaces it and is then refused for its cost. */
  lemma RejectionMayDisplace() returns (s: PendingPools.Pending)
    ensures PendingPools.PendingSound(PendingPools.NOTHING)
    ensures PendingPools.Submitted(PendingPools.NOTHING, HELD, LIMITS) == (s, Ok(9)) && 1 in s.items
    ensures PendingPools.PendingSound(s) && PendingPools.Submitted(s, WINNER, LIMITS) == (PendingPools.NOTHING, Err(PendingPoolFull))
  {
    HeldAndWinner();
    s := HeldEnters(HELD);
    WinnerLoses(s, WINNER);
  }
}
