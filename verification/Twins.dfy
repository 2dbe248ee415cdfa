/**
 * A block clears the seen cache while a bundle is being validated (src/mempool/lifecycle.rs:292). Submitted once
 * more, it can end up active and pending at once: each pool looks only at itself when it lets an item in
 * (src/mempool/submit.rs:499-503, 594-596). `Crossings.ApartEverIff` says exactly when that happens.
 */
module Twins {
  import opened Prelude
  import opened PoolState
  import opened PoolInvariants
  import opened Timelocks
  import opened Admission
  import opened PendingPools
  import opened Submissions
  import opened Scenarios
  import opened Worlds
  import Refusals

  /** A bundle locked until height 9, and two views of the chain, before and at that height. */
  const TWIN: Validated := Refusals.Offer(1, 500_000, []).(conditions := Conditions(9, 0, None, None, []))
  const EARLY: Setting := Setting(map[COIN := CoinRecord(0, 0)], 8, 0, true, 10_000_000, CFG, Refusals.LIMITS)
  const DUE: Setting := EARLY.(height := 9)
  const BOUNDS: Bounds := Bounds(CFG, Refusals.LIMITS, 10)

  ghost predicate IsTwin(b: Validated) {
    && b.fee == 1 && b.reserveFee == 0 && b.cost == 500_000 && b.numSpends == 1 && b.removals == [COIN] && b.additions == []
    && b.dedupKeys == [] && WindowFor(b, EARLY) == Refusals.LATER == WindowFor(b, DUE)
  }

  lemma TwinIs()
    ensures IsTwin(TWIN)
  {
  }

  lemma Routes(b: Validated)
    requires IsTwin(b)
    ensures Screened(b, EARLY).Pending? && Screened(b, DUE).Active?
  {
  }

  lemma TwinCommits(c: Candidate, v: Chainview) returns (p: Pool)
    requires c.id == 1 && c.removals == [COIN] && c.Cost() == 1_000_000 && c.numSpends == 1 && c.dedupKeys == []
    requires v.onChain == {COIN} && v.policyAccepts
    ensures CoinsTrue(EMPTY) && Commits(EMPTY, c, v, CFG, NOBODY, p, None)
    ensures CoinsTrue(p) && 1 in p.items
  {
    OwnedOne(COIN, 1);
    EmptyReached(CFG);
    ReachedSet(EMPTY, CFG);
    EntersAlone(EMPTY, c, v, CFG);
    p := Insert(EMPTY, Root(c, v.height));
  }

  lemma TwinSeen(b: Validated)
    requires IsTwin(b)
    ensures var c := CandidateFor(1, b, WindowFor(b, DUE));
      c.id == 1 && c.removals == [COIN] && c.Cost() == 1_000_000 && c.numSpends == 1 && c.dedupKeys == []
    ensures ViewOf(DUE).onChain == {COIN} && ViewOf(DUE).policyAccepts && DUE.active == CFG
  {
  }

  /** Validated against the later view, the bundle becomes active. */
  lemma OneActive(b: Validated, e: Pool, n: Pending) returns (p: Pool)
    requires IsTwin(b) && e == EMPTY && PendingSound(n)
    ensures CoinsTrue(e) && Concluded(e, n, 1, Ok(b), DUE, NOBODY, p, n, Admitted)
    ensures CoinsTrue(p) && 1 in p.items
  {
    Routes(b);
    TwinSeen(b);
    p := TwinCommits(CandidateFor(1, b, WindowFor(b, DUE)), ViewOf(DUE));
  }

  /** Validated against the earlier view, it becomes pending, whatever is active. */
  lemma OnePending(b: Validated, p: Pool) returns (q: Pending)
    requires IsTwin(b) && CoinsTrue(p)
    ensures PendingSound(NOTHING) && Concluded(p, NOTHING, 1, Ok(b), EARLY, NOBODY, p, q, Waiting(9))
    ensures 1 in q.items
  {
    Routes(b);
    q := Refusals.HeldEnters(PendingItem(1, b, WindowFor(b, EARLY), 8));
  }

  /** In flight `k` times, with nothing in either pool; the block has cleared the cache. */
  ghost function InFlight(e: Pool, n: Pending, k: nat): World {
    World(e, n, [], multiset{}, multiset{}, multiset{}[1 := k])
  }

  lemma OnceMore(e: Pool, n: Pending, k: nat) returns (w: World)
    requires Comes(InFlight(e, n, k), BOUNDS) && 1 !in e.items && 1 !in n.items
    ensures Comes(w, BOUNDS) && w == InFlight(e, n, k + 1).(log := [1])
  {
    var unseen;
    unseen, w := ComesAround(InFlight(e, n, k), BOUNDS, 1);
    assert [] + [1] == [1] && multiset{}[1 := k] + multiset{1} == multiset{}[1 := k + 1];
  }

  /** Announced, a block, announced again. */
  lemma TwiceAnnounced(e: Pool, n: Pending) returns (w: World)
    requires World(e, n, [], multiset{}, multiset{}, multiset{}) == NEW_WORLD
    ensures Comes(w, BOUNDS) && w.pool == e && w.pending == n && w.flying == multiset{1, 1}
  {
    NewWorldComes(BOUNDS);
    assert multiset{}[1 := 0] == multiset{} && multiset{}[1 := 2] == multiset{1, 1};
    w := OnceMore(e, n, 0);
    ComesNext(w, BOUNDS, Forgetting, InFlight(e, n, 1));
    w := OnceMore(e, n, 1);
  }

  lemma BothConclude(w: World, b: Validated, p: Pool, q: Pending) returns (r: World)
    requires Comes(w, BOUNDS) && w.flying == multiset{1, 1} && IsTwin(b) && CoinsTrue(w.pool) && PendingSound(w.pending) && CoinsTrue(p)
    requires Concluded(w.pool, w.pending, 1, Ok(b), DUE, NOBODY, p, w.pending, Admitted)
    requires Concluded(p, w.pending, 1, Ok(b), EARLY, NOBODY, p, q, Waiting(9))
    ensures Comes(r, BOUNDS) && r.pool == p && r.pending == q
  {
    assert multiset{1, 1} - multiset{1} == multiset{1};
    var one := w.(pool := p, flying := multiset{1});
    ComesNext(w, BOUNDS, Conclusion(1, Ok(b), DUE, NOBODY, Admitted), one);
    r := one.(pending := q, flying := multiset{1} - multiset{1});
    ComesNext(one, BOUNDS, Conclusion(1, Ok(b), EARLY, NOBODY, Waiting(9)), r);
  }

  /** The same bundle, announced on both sides of a block, is active and pending at the end. */
  lemma ActiveAndPending() returns (w: World, r: World)
    ensures Comes(w, BOUNDS) && w.flying == multiset{1, 1}
    ensures Comes(r, BOUNDS) && 1 in r.pool.items && 1 in r.pending.items
  {
    TwinIs();
    NothingSafe(Refusals.LIMITS);
    w := TwiceAnnounced(EMPTY, NOTHING);
    var p := OneActive(TWIN, EMPTY, NOTHING);
    var q := OnePending(TWIN, p);
    r := BothConclude(w, TWIN, p, q);
  }
}
