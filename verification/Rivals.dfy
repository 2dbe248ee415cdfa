/**
 * Between the two locked sections of a restoration another thread may claim a coin of the snapshot
 * (src/mempool/persistence.rs:119-155): a run in which both spenders end up active. `Runs.IndexFullEverIff`
 * says when that cannot happen.
 */
module Rivals {
  import opened Prelude
  import opened Items
  import opened Graph
  import opened PoolState
  import opened PoolInvariants
  import opened Admission
  import opened Persistence
  import opened Reinsertions
  import opened Scenarios
  import opened Runs
  import Sums

  const SAVED: Candidate := Bid(1, 5, [COIN], [])
  const RIVAL: Candidate := Bid(7, 5, [COIN], [])

  ghost predicate IsSpender(c: Candidate, id: Id) { Offers(c, id, 5, 1_000_000, [COIN], []) }

  lemma Bids()
    ensures IsSpender(SAVED, 1) && IsSpender(RIVAL, 7)
  {
    BidOffers(1, 5, [COIN], []);
    BidOffers(7, 5, [COIN], []);
  }

  /** The pool that a bundle on its own makes. */
  ghost predicate Single(p: Pool, c: Candidate) {
    p.items == map[c.id := Root(c, 0)] && p.totalCost == 1_000_000 && p.totalSpends == 1
  }

  lemma SpenderFirst(c: Candidate, id: Id) returns (one: Pool)
    requires IsSpender(c, id)
    ensures CoinsTrue(EMPTY) && Commits(EMPTY, c, CHAIN, CFG, NOBODY, one, None)
    ensures Single(one, c)
  {
    one := Insert(EMPTY, Root(c, 0));
    EmptyReached(CFG);
    ReachedSet(EMPTY, CFG);
    OwnedOne(COIN, id);
    EntersAlone(EMPTY, c, CHAIN, CFG);
    RootJoins(EMPTY, c, 0);
  }

  lemma NoParentsNoCycle(items: map<Id, Item>)
    requires forall b :: b in items ==> items[b].dependsOn == {}
    ensures Acyclic(Parents(items))
  {
    assert Ranked(Parents(items), (x: Id) => 0, 0);
  }

  lemma SingleFacts(p: Pool, c: Candidate, id: Id)
    requires IsSpender(c, id) && Single(p, c)
    ensures p.items.Keys == {id} && p.items[id].dependsOn == {} && p.items[id].removals == [COIN]
    ensures Sums.Total(Costs(p.items)) == 1_000_000 && Sums.Total(Spends(p.items)) == 1
  {
    OneSum(Costs(p.items), id);
    OneSum(Spends(p.items), id);
    assert Costs(p.items).Keys == {id} && Spends(p.items).Keys == {id};
  }

  /** The ids are fresh and there is room. */
  lemma RivalRoom(one: Pool, other: Pool, a: Candidate, b: Candidate)
    requires IsSpender(a, 1) && IsSpender(b, 7) && Single(one, a) && Single(other, b)
    ensures Reinsertable(other, one.items, CFG)
  {
    SingleFacts(one, a, 1);
    SingleFacts(other, b, 7);
    RoomWhen(other, one.items);
  }

  lemma RoomWhen(other: Pool, items: map<Id, Item>)
    requires other.items.Keys == {7} && other.items[7].dependsOn == {} && items.Keys == {1} && items[1].dependsOn == {}
    requires other.totalCost == 1_000_000 && other.totalSpends == 1
    requires Sums.Total(Costs(items)) == 1_000_000 && Sums.Total(Spends(items)) == 1
    ensures Reinsertable(other, items, CFG)
  {
    NoParentsNoCycle(other.items + items);
  }

  lemma Longer(states: seq<Pool>, acts: seq<Act>, act: Act, r: Pool, more: seq<Pool>, longer: seq<Act>)
    requires Run(states, acts, CFG) && more == states + [r] && longer == acts + [act] && Step(more, CFG, |acts|, act)
    ensures Run(more, longer, CFG)
  {
    RunGoesOn(states, acts, CFG, act, r);
  }

  lemma RunOfTwo(e: Pool, one: Pool, w: Act, x: Act)
    requires Run([e], [], CFG) && Step([e, one], CFG, 0, w) && Step([e, one, e], CFG, 1, x)
    ensures Run([e, one, e], [w, x], CFG)
  {
    Longer([e], [], w, one, [e, one], [w]);
    Longer([e, one], [w], x, e, [e, one, e], [w, x]);
  }

  lemma RunOfThree(e: Pool, one: Pool, other: Pool, w: Act, x: Act, y: Act)
    requires Run([e, one, e], [w, x], CFG) && Step([e, one, e, other], CFG, 2, y)
    ensures Run([e, one, e, other], [w, x, y], CFG)
  {
    Longer([e, one, e], [w, x], y, other, [e, one, e, other], [w, x, y]);
  }

  /** Four acts, one after the other. */
  lemma RunOfFour(e: Pool, one: Pool, other: Pool, both: Pool, w: Act, x: Act, y: Act, z: Act)
    requires Run([e, one, e], [w, x], CFG)
    requires Step([e, one, e, other], CFG, 2, y) && Step([e, one, e, other, both], CFG, 3, z)
    ensures Run([e, one, e, other, both], [w, x, y, z], CFG)
  {
    RunOfThree(e, one, other, w, x, y);
    Longer([e, one, e, other], [w, x, y], z, both, [e, one, e, other, both], [w, x, y, z]);
  }

  lemma FirstStep(e: Pool, one: Pool, c: Candidate)
    requires c.dedupKeys == [] && CoinsTrue(e) && Commits(e, c, CHAIN, CFG, NOBODY, one, None)
    ensures Step([e, one], CFG, 0, Submission(c, CHAIN, NOBODY, None))
  {
    SubmissionStep([e, one], CFG, 0, c, CHAIN, NOBODY, None);
  }

  lemma ThirdStep(e: Pool, one: Pool, other: Pool, c: Candidate)
    requires c.dedupKeys == [] && CoinsTrue(e) && Commits(e, c, CHAIN, CFG, NOBODY, other, None)
    ensures Step([e, one, e, other], CFG, 2, Submission(c, CHAIN, NOBODY, None))
  {
    SubmissionStep([e, one, e, other], CFG, 2, c, CHAIN, NOBODY, None);
  }

  lemma OtherSteps(e: Pool, one: Pool, other: Pool, xs: seq<Item>)
    requires e == EMPTY && Listing(one.items, xs)
    ensures Run([e], [], CFG) && Step([e, one, e], CFG, 1, Reset)
    ensures Step([e, one, e, other, InsertAll(other, xs)], CFG, 3, Reinsertion(1, xs))
  {
  }

  ghost function FourActs(a: Candidate, b: Candidate, xs: seq<Item>): seq<Act> {
    [Submission(a, CHAIN, NOBODY, None), Reset, Submission(b, CHAIN, NOBODY, None), Reinsertion(1, xs)]
  }

  lemma RivalSteps(one: Pool, other: Pool, a: Candidate, b: Candidate, xs: seq<Item>) returns (e: Pool)
    requires a.dedupKeys == [] == b.dedupKeys && Listing(one.items, xs)
    requires CoinsTrue(EMPTY) && Commits(EMPTY, a, CHAIN, CFG, NOBODY, one, None) && Commits(EMPTY, b, CHAIN, CFG, NOBODY, other, None)
    ensures Run([e, one, e, other, InsertAll(other, xs)], FourActs(a, b, xs), CFG)
  {
    e := EMPTY;
    FirstStep(e, one, a);
    ThirdStep(e, one, other, b);
    OtherSteps(e, one, other, xs);
    RunOfTwo(e, one, Submission(a, CHAIN, NOBODY, None), Reset);
    RunOfFour(e, one, other, InsertAll(other, xs), Submission(a, CHAIN, NOBODY, None), Reset,
              Submission(b, CHAIN, NOBODY, None), Reinsertion(1, xs));
  }

  lemma ActsTimely(states: seq<Pool>, acts: seq<Act>, a: Candidate, b: Candidate, xs: seq<Item>)
    requires |states| == 5 && acts == FourActs(a, b, xs) && Reinsertable(states[3], states[1].items, CFG)
    ensures AllTimely(states, acts, CFG)
  {
  }

  lemma ActsPlain(a: Candidate, b: Candidate, xs: seq<Item>)
    requires IsSpender(a, 1) && IsSpender(b, 7)
    ensures AllPlain(FourActs(a, b, xs))
  {
  }

  lemma ActsRivalled(states: seq<Pool>, acts: seq<Act>, a: Candidate, b: Candidate, xs: seq<Item>)
    requires |states| == 5 && acts == FourActs(a, b, xs) && !CoinsUnclaimed(states[3], states[1].items)
    ensures !Unrivalled(states, acts, 3) && acts[1].Reset? && acts[3].Reinsertion?
  {
  }

  /** The last state of the run below: both bundles are active and spend the coin. */
  ghost predicate SpentTwice(p: Pool) {
    && 1 in p.items && 7 in p.items && COIN in p.items[1].removals && COIN in p.items[7].removals
    && !CoinsFull(p)
  }

  /** Admitted and listed, the pool cleared, the rival admitted, the listing put back. */
  lemma RivalRun() returns (states: seq<Pool>, acts: seq<Act>)
    ensures TimelyRun(states, acts, CFG) && AllPlain(acts) && |states| == 5 && acts[1].Reset? && acts[3].Reinsertion?
    ensures SpentTwice(states[4]) && !Unrivalled(states, acts, 3)
  {
    Bids();
    var one := SpenderFirst(SAVED, 1);
    var other := SpenderFirst(RIVAL, 7);
    states, acts := RivalStates(one, other, SAVED, RIVAL);
  }

  lemma RivalStates(one: Pool, other: Pool, a: Candidate, b: Candidate) returns (states: seq<Pool>, acts: seq<Act>)
    requires IsSpender(a, 1) && IsSpender(b, 7) && Single(one, a) && Single(other, b)
    requires CoinsTrue(EMPTY) && Commits(EMPTY, a, CHAIN, CFG, NOBODY, one, None) && Commits(EMPTY, b, CHAIN, CFG, NOBODY, other, None)
    ensures TimelyRun(states, acts, CFG) && AllPlain(acts) && |states| == 5 && acts[1].Reset? && acts[3].Reinsertion?
    ensures SpentTwice(states[4]) && !Unrivalled(states, acts, 3)
  {
    var xs := [Root(a, 0)];
    RivalRoom(one, other, a, b);
    PutBack(one, other, a, b, xs);
    var e := RivalSteps(one, other, a, b, xs);
    ActsPlain(a, b, xs);
    states, acts := RivalFacts(e, one, other, InsertAll(other, xs), a, b, xs);
  }

  lemma RivalFacts(e: Pool, one: Pool, other: Pool, both: Pool, a: Candidate, b: Candidate, xs: seq<Item>)
    returns (states: seq<Pool>, acts: seq<Act>)
    requires Run([e, one, e, other, both], FourActs(a, b, xs), CFG) && Reinsertable(other, one.items, CFG)
    requires !CoinsUnclaimed(other, one.items)
    ensures states == [e, one, e, other, both] && acts == FourActs(a, b, xs)
    ensures TimelyRun(states, acts, CFG) && !Unrivalled(states, acts, 3) && acts[1].Reset? && acts[3].Reinsertion?
  {
    states, acts := [e, one, e, other, both], FourActs(a, b, xs);
    ActsTimely(states, acts, a, b, xs);
    ActsRivalled(states, acts, a, b, xs);
  }

  lemma PutBack(one: Pool, other: Pool, a: Candidate, b: Candidate, xs: seq<Item>)
    requires IsSpender(a, 1) && IsSpender(b, 7) && Single(one, a) && Single(other, b) && xs == [Root(a, 0)]
    ensures Listing(one.items, xs)
    ensures SpentTwice(InsertAll(other, xs))
    ensures !CoinsUnclaimed(other, one.items)
  {
    assert IdsOf(xs) == [1] && Elems([1]) == {1};
    Reinserted(other, one.items, xs);
    if CoinsFull(InsertAll(other, xs)) { FullUnclaimed(InsertAll(other, xs)); }
    assert COIN in other.items[7].removals && COIN in one.items[1].removals;
  }
}
