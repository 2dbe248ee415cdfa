# Mempool state machine and block selector

This project models the in-memory mempool of an L2 node and proves what it guarantees.

The **active pool** keeps one store of items and nine structures derived from it: who spends a coin,
who creates it, the parent and child edges of child-pays-for-parent families, dedup bearers and
waiters, singleton chains, and three running totals. A submission is checked against the pool,
may replace conflicting items (replace-by-fee, cascading to their dependents), may displace cheaper
items to make room, and is inserted. Blocks confirm and expire items, percentage eviction relieves
memory pressure, snapshots rebuild the pool from its items alone. The **block selector** packs
candidates greedily in four different orders under two budgets and lists the best result with
parents first.

## How it is built

- `PoolState.dfy` says what each operation does to each index, as functions on a pool value. The
  classes `ActivePool`, `PendingPool` and `SeenCache` and the methods around them work in place, loop by
  loop, and are proved to end in exactly those states. Everything else is proved about the values.
- Hash maps and sets are walked in an arbitrary order (`Prelude.Enumerate`); ties in a sort by score
  are broken arbitrarily. Every theorem holds for all of those orders.
- A locked section is one step. `Runs.dfy` proves safety over every sequence of such steps, so over
  every interleaving of commits with each other and with blocks, evictions, resets and re-insertions; the
  commit checks everything again, whatever happened since the earlier phases of the submission. A
  restoration is two steps, as the lock is released between clearing and re-inserting: what is committed
  in between is still there, and the theorems that depend on it say what must be known before the second.
- `Worlds.dfy` puts both pools and the seen cache side by side and splits a submission into its locked
  sections, so that several can be under way at once; `Crossings.dfy` says when an id gets into both pools.
- What a specification function means is said once more without it, field by field and value by value: the
  lemmas named `...Means`, `...Order` and `...Is` fix every order, threshold, answer and stored field.
- Graph closures are least closed sets, acyclicity is a bounded ranking (`Graph.dfy`); cascades, worklists
  and the memoised layering get their termination from it.
- u64 arithmetic is modelled as written in the source: saturating where it says so, modulo 2^64 where it
  uses plain `+` or `sum()`. Bundle ids are natural numbers ordered as 32-byte strings are. Coin ids are
  ideal hashes: created coins name their parent coin.
- `order` in the pool value (a ghost field of the class) is the admission history; no operation reads it.

Signature and puzzle execution is a parameter: any validated bundle, any fee, cost, coins and conditions.
The admission policy is an arbitrary verdict. The caller's coin records are an arbitrary map.
Of a validated bundle the theorems assume, where they say so, that its dedup keys are distinct (validation
refuses a bundle that spends a coin twice) and that every coin it creates names a coin it spends.

## Findings

Where the code does less than its documentation or an obvious reading promises, the project keeps the
code as it is, shows it in a run from the empty pool or on a concrete input or for all pools, and proves
exactly when the promise holds. The coins of every run leave over exactly the fees that are paid.

- `descendant_score` is documented as the maximum over all descendants (src/item.rs:159-165). The walk stops
  at an ancestor that already scores higher, possibly because of its own rate, and never informs those
  above it: `LostScores.DescendantsNotAlwaysCovered`. Exact condition: `Scores.DescendantsCoveredIff`. What always
  holds is own rate and direct children.
- Parents are resolved before displacement. A newcomer may replace its own parent, or squeeze it out, and stay,
  unminable: `Boundaries.UsurperOrphaned`, `Survival.LostParentOrphans`. Exact condition: `Survival.ParentsSurviveIff`.
- The cycle check is commented as guarding the impossible (src/mempool/submit.rs:659-661). It fires when that
  lost parent is submitted again: `Boundaries.CycleCheckFires`. Exact condition: `Families.CycleIffLostParent`.
- A refusal may have displaced items already, in both pools: `Refusals.RefusalMayDisplace`,
  `Refusals.RejectionMayDisplace`. Exact conditions: `Admitted.RefusedUnchangedIff`, `PendingPools.RejectionUnchangedIff`.
- With dedup on, removing one of two items that share a coin makes the coin look unspent:
  `Boundaries.RemovalForgetsCoins`. Exact condition: `Boundaries.RemovalKeepsIndexedIff`.
- Removing a parent on its own and admitting it again does not restore its child edges; a restore does. So
  "no orphans" is not enough for the round trip: `Boundaries.ReturningParentUnlinked`. Exact condition:
  `Persistence.RoundTrip`.
- Singleton successors are added without their other parents: `Overtaking.ChainMayOutrunParents`. Exact condition:
  `Packing.ClosedIff`.
- The full-tier fee estimate is documented as beating the lowest item (src/mempool/fee.rs:51). It may only match
  it: `FeeEstimates.FullTierMayOnlyMatch`. Exact condition: `FeeEstimates.FullTier`.
- `estimate_min_fee` documents the configured spend penalty (src/mempool/fee.rs:26); the code uses the constant
  of src/item.rs:333-335: `FeeEstimates.PenaltyIgnored`. Exact condition: `FeeEstimates.PenaltyIgnoredIff`.
- A restoration releases the lock between clearing the pool and re-inserting the snapshot, and `insert` checks
  nothing (src/mempool/persistence.rs:119-155). A commit in between may leave a coin with two active spenders or
  a cost that is counted twice: `Rivals.RivalRun`, `Reinsertions.ReinsertedTwice`. Exact conditions:
  `Reinsertions.ReinsertionCoinsIff` and `Reinsertions.ReinsertionSafeIff`, over whole runs `Runs.IndexFullEverIff`
  and `Runs.SafeEverIff`.
- The checks under the write locks are commented as ruling out a second insertion of the same bundle
  (src/mempool/submit.rs:152-153), but each pool looks only at itself. When a block clears the seen cache under a
  submission, the bundle can be announced again and become active and pending at once:
  `Twins.ActiveAndPending`. Exact condition: `Crossings.MoveCrosses`, over whole histories `Crossings.ApartEverIff`;
  schedules that rule it out: `Worlds.LoneApart`, `Worlds.ApartWhileRemembered`.
- Making room takes single items, not subtrees (src/pools/active.rs:378-386): a cheap parent of a dearer child falls
  first and leaves the child behind: `Orphans.ChildOutlivesParent`. Exact condition: `Sparing.OrphansNobodyIff`.
- Conflict totals are summed with plain u64 addition; wrapped totals let a far cheaper replacement through:
  `Bargains.WrappedTotalsMislead`. Exact condition: `Rbf.BumpPaidIff`.

Two more exact conditions: with dedup on, active items may share coins, and a selection spends none twice exactly
under `Packing.CoinsOnceIff`; the saturating fee total is the exact sum throughout a run exactly under
`Runs.FeesExactEverIff`.

## Model

| member | source | states |
|---|---|---|
| `Items.FpcIsFloor` | src/item.rs:318-323 | the scaled rate is the exact quotient fee·10¹²/virtual cost rounded down, and the u128 product never overflows |
| `Items.HigherScaledRateIsHigher` | src/item.rs:310-323 | a strictly greater scaled rate implies a strictly greater exact fee/virtual-cost ratio |
| `Items.VirtualCostExactIff` | src/item.rs:325-335 | the virtual cost is cost + spends·penalty if and only if that sum fits a u64; otherwise it wraps |
| `Items.ProtectedMeans` | src/pools/active.rs:421-432 | shielded is exactly who has a height bound that lies ahead, by at most the configured number of blocks |
| `Items.ExpiredMeans` | src/mempool/lifecycle.rs:330-332 | expired is exactly who has reached its height bound or its time bound |
| `ActivePools.ActivePool.constructor` | src/pools/active.rs:85-99 | a new pool has empty indexes and zero accumulators |
| `ActivePools.ActivePool.Clear` | src/mempool/lifecycle.rs:86-100 | clearing gives the state of a new pool |
| `ActivePools.ActivePool.Insert` | src/pools/active.rs:110-156 | the in-place insertion, index by index, ends in the specified state `PoolState.Insert`, about which the invariants below are proved |
| `ActivePools.ActivePool.Remove` | src/pools/active.rs:162-234 | the in-place removal ends in `PoolState.Remove` (waiter inherits the bearer's role, childless parents leave `dependents`, parents are rescored) and returns the removed item, or changes nothing and returns None |
| `ActivePools.JoinDedup` | src/pools/active.rs:123-130 | after the loop every listed key's queue (bearer, then waiters) has the item at its end once, every other queue is as before, and no waiter list is left empty or without a bearer |
| `ActivePools.LeaveDedup` | src/pools/active.rs:172-203 | after the loop every listed key's queue has lost exactly the item, so the first waiter has become bearer where the bearer left, every other queue is as before, and no waiter list is left empty or without a bearer |
| `ActivePools.JoinGraph` | src/pools/active.rs:132-136 | the loop over parents adds exactly the edges between the newcomer and its parents, in both directions |
| `ActivePools.LeaveGraph` | src/pools/active.rs:215-227 | the loop over parents takes the item out of both edge maps, drops empty entries, and leaves every parent with the score its remaining children give it, in any order |
| `ActivePools.RecomputeScore` | src/pools/active.rs:239-265 | the score becomes the larger of the own rate and the largest package rate among the remaining active direct children |
| `ActivePools.LiftScores` | src/pools/active.rs:272-322 | the ancestor walk lifts exactly the ancestors reachable through ancestors that score below the newcomer's package rate, whatever order they are popped in, and terminates |
| `Scores.RaiseMeans` | src/pools/active.rs:272-322 | score by score: an item is lifted to exactly the newcomer's package rate if some walk up from one of its parents leads there through active items that all score less, and otherwise keeps its score |
| `Scores.RemoveMeans` | src/pools/active.rs:225-265 | item by item: a parent of what is removed ends with the largest of its own rate and the package rates of its remaining active children, and nobody else's score changes |
| `ActivePools.ActivePool.UpdateDescendantScoresOnAdd` | src/pools/active.rs:272-322 | the whole pool after the walk, unchanged when the id is not active |
| `ActivePools.ActivePool.CascadeEvict` | src/pools/active.rs:328-350 | terminates on an acyclic graph; removes exactly the item and its active transitive dependents, each reported once, every child before its parents, the root last (`CascadeOf`) |
| `ActivePools.ActivePool.EvictFor` | src/pools/active.rs:357-419 | the two-pass capacity eviction for every tie-breaking order (`EvictedFor`): which candidates each pass considers, where it stops, what it answers, and that nothing but the listed ids left the pool |
| `PoolState.IndexCoins` | src/pools/active.rs:113-121 | the loop over coins: every listed coin now points to the item, all other entries as before |
| `PoolState.UnindexCoins` | src/pools/active.rs:165-170 | the loop over coins drops exactly the listed coins |
| `PoolInvariants.InsertSound` | src/pools/active.rs:101-156 | insertion of a fresh id keeps every index true to the items: edges exact, coin entries never stale, queues and chains in admission order, cost and spend totals exact sums, graph acyclic |
| `PoolInvariants.RemoveSound` | src/pools/active.rs:158-234 | plain removal of any id keeps all of the same invariants, orphans or not |
| `PoolInvariants.InsertCoinsFull` | src/pools/active.rs:104-121 | when the newcomer's coins are unclaimed, both coin indexes stay complete; created coins cannot clash because each names a spent parent |
| `PoolInvariants.RemoveCoinsFull` | src/pools/active.rs:162-170 | removal keeps complete coin indexes complete |
| `PoolInvariants.JoinQueued` | src/pools/active.rs:123-130 | after joining, bearer plus waiters of every key is the admission order cut down to the key's carriers |
| `PoolInvariants.DropQueued` | src/pools/active.rs:172-203 | after leaving, the same, the first waiter having become bearer when the bearer left |
| `PoolInvariants.JoinChain` | src/pools/active.rs:138-148 | a singleton chain stays the admission order cut down to its launcher |
| `PoolInvariants.DropChain` | src/pools/active.rs:205-213 | so it does when a member is removed; an empty chain leaves no entry |
| `PoolInvariants.RemoveSeqCost` | src/pools/active.rs:229-231 | a sequence of removals lowers the cost total by exactly the sum of the removed virtual costs |
| `PoolInvariants.RemoveSeqItems` | src/pools/active.rs:162-234 | the survivors of any sequence of removals are the other items, changed in nothing but their scores |
| `PoolInvariants.RemoveSeqChildren` | src/pools/active.rs:215-227 | after any sequence of removals the child edges are exactly those between survivors |
| `PoolInvariants.RemoveSeqScore` | src/pools/active.rs:225-265 | in whatever order a set of items is removed, every survivor ends up with the same score: rescored from its remaining children if it lost one, else as it was |
| `PoolInvariants.InsertFeesExactIff` | src/pools/active.rs:150-153 | an insertion keeps the fee total the exact sum if and only if the new sum fits a u64 |
| `PoolInvariants.RemoveSeqFeesExact` | src/pools/active.rs:229-231 | removals keep an exact fee total exact |
| `Cascades.CascadeNoOrphans` | src/pools/active.rs:324-350 | a cascade takes exactly the subtree and orphans nobody when nobody was orphaned before |
| `Cascades.ClosedNoOrphans` | src/pools/active.rs:334-350 | removing any list in which children precede their parents keeps the pool free of orphans |
| `Cascades.DescendantsBefore` | src/pools/active.rs:325-327 | every transitive descendant of an evicted item is evicted before it, also where paths meet again |
| `Cascades.NotBelowItself` | src/pools/active.rs:334-350 | no item is among its own descendants, which is why the recursion ends |
| `Evictions.DisplacedWereCheaper` | src/pools/active.rs:378-386 | every displaced item's snapshotted score is strictly below the newcomer's own rate, in both passes |
| `Evictions.ShieldHolds` | src/pools/active.rs:354-356 | an expiry-protected item is displaced only for a protected newcomer, and only once every unprotected item is gone |
| `Evictions.StopsWhenItFits` | src/pools/active.rs:378-386 | no item is displaced once the newcomer fits |
| `Evictions.SuccessMeansRoom` | src/pools/active.rs:414-418 | on success the newcomer fits |
| `Evictions.LetInIff` | src/pools/active.rs:357-419 | an unprotected newcomer is let in if and only if displacing every cheaper unprotected item makes room for it |
| `Evictions.ShieldedLetInIff` | src/pools/active.rs:388-419 | a protected newcomer is let in if and only if displacing every cheaper unprotected item makes room, or all unprotected items are cheaper and displacing them and every protected item that is then cheaper does; all of it read off the pool before the call |
| `Evictions.DisplacesNobodyIff` | src/pools/active.rs:357-419 | the call displaces nobody if and only if there is room already, the newcomer is larger than the pool, or nobody it may displace is cheaper, all known before the call |
| `Survival.SurvivesCallIff` | src/pools/active.rs:357-419 | an item, protected or not, survives the call under every tie-breaking order if and only if it is `Secure` beforehand: the newcomer is too large, does not beat its score, may not touch it, or fits once everyone strictly cheaper is gone |
| `Survival.SurvivesIff` | src/mempool/submit.rs:815-907 | an active item survives replace-by-fee and capacity eviction of a commit, whatever the hash maps do, if and only if it is not below a conflict and is `Secure` without what is |
| `Sparing.EntersIff` | src/mempool/submit.rs:885-907 | whether a newcomer past the checks finds room is settled before the commit, whatever the hash maps do: if and only if displacing every cheaper unprotected item left by replace-by-fee makes room, or the newcomer is near expiry and what it may displace then does (`LetIn`) |
| `Sparing.KidsGoneIff` | src/mempool/submit.rs:815-907 | under every order of hash maps and ties each displaced item takes all its children along, if and only if every child left to an item that may fall is `Doomed` beforehand: even as the last of its equals it has to make room |
| `Sparing.OrphansNobodyIff` | src/mempool/submit.rs:815-907 | a commit past the checks orphans nobody, whatever the hash maps do, if and only if those children are doomed and a newcomer that gets in can lose none of its parents; all known before the commit |
| `Survival.GoneSwept` | src/mempool/submit.rs:815-907 | everything a commit displaces leaves children first, when whoever may be displaced has only children that are displaced before it; both known before the commit |
| `Refusals.RefusalMayDisplace` | src/pools/active.rs:378-386 | two admitted bundles and a third that is answered `MempoolFull` and leaves the pool without the first |
| `Scores.AdmitScores` | src/pools/active.rs:268-322 | under active parents, an admission keeps every score at least the item's own rate and every direct child's package rate |
| `Scores.RemoveScores` | src/pools/active.rs:236-265 | so does every removal |
| `Scores.AdmitWitnessed` | src/pools/active.rs:268-322 | in add-only runs every score is the item's own rate or the package rate of one of its transitive descendants |
| `Scores.DescendantsCoveredIff` | src/item.rs:159-165 | the documented maximum over all descendants survives an admission if and only if no ancestor scoring below the newcomer's package rate hides behind one that does not |
| `LostScores.DescendantsNotAlwaysCovered` | src/pools/active.rs:302-304 | three submissions from the empty pool: before the third every score covers every descendant, after it the grandparent's does not |
| `Packages.DepthIsLongestPath` | src/mempool/submit.rs:628-641 | depth computed from direct parents is the length of the longest ancestor path |
| `Packages.PackageBounds` | src/mempool/submit.rs:677-702 | a package value is at least the sum over the item and all its ancestors, and equal to it when every ancestor is reached along one path only |
| `Families.FamilyMeans` | src/mempool/submit.rs:613-702 | in a pool without orphans: depth is the longest ancestor path and falls strictly towards parents, package fee and cost cover the ancestor sums (exactly on trees), scores cover own rate and direct children |
| `Orphans.ChildOutlivesParent` | src/pools/active.rs:378-386 | three submissions from the empty pool: the third squeezes out the first, and the second stays active without its only parent |
| `Families.CommitKeepsFamily` | src/mempool/submit.rs:613-929 | a commit keeps all of the above when it spares the family: every child left to an item that may fall has to fall too, and a newcomer that gets in can lose no parent and has package sums within a u64 |
| `Families.CommitFamilyIff` | src/mempool/submit.rs:613-929 | and only then: a commit past the checks keeps all of the above under every order of hash maps and ties if and only if it spares the family, as seen before it |
| `Families.PackageExactIff` | src/mempool/submit.rs:677-702 | a package value is its own value plus the parents' package values if and only if that sum fits a u64 |
| `Families.CommitScores` | src/pools/active.rs:268-322 | a commit whose newcomer, if it gets in, cannot displace its own parents keeps every score at least the item's own rate and its direct children's package rates, whatever else it orphans |
| `Families.SweepKeepsFamily` | src/pools/active.rs:328-350 | so does every sequence of cascades |
| `Survival.ParentsSurviveIff` | src/mempool/submit.rs:613-907 | a newcomer keeps all its parents, through replace-by-fee and capacity eviction and whatever the hash maps do, if and only if each of them survives as seen before the commit (`Survives`) |
| `Survival.ReplacingParentOrphans` | src/mempool/submit.rs:823-825 | a newcomer with a parent in conflict with it, or below a conflict, ends up active with an inactive parent |
| `Survival.LostParentOrphans` | src/mempool/submit.rs:815-907 | so does one whose parent is displaced in either way |
| `Boundaries.UsurperOrphaned` | src/mempool/submit.rs:736-813 | three submissions from the empty pool: the third replaces the first, sweeps away the second, its own parent, and is active with no active parent |
| `Families.CycleIffLostParent` | src/mempool/submit.rs:655-676 | the defensive cycle check fires if and only if an ancestor still names the newcomer as its parent; without orphans it never fires |
| `Boundaries.CycleCheckFires` | src/mempool/submit.rs:659-661 | the same run, then the lost parent submitted again as it was: refused with `DependencyCycle` |
| `Admission.Commit` | src/mempool/submit.rs:582-934 | the in-place commit, for every tie-breaking order: same checks in the same order, same displacement, same item, same final state and answer (`Commits`) |
| `Sparing.CommitAnswers` | src/mempool/submit.rs:594-934 | every answer of a commit in the order of the checks, known before it: idempotent success, the family checks, the replacement rules, no room, the policy, success |
| `Windows.AdmittedFields` | src/mempool/submit.rs:857-891 | the item a commit stores, field by field: the newcomer's coins, times, locks and lineage each in its place, its own rate and its package rate from its own and its package values |
| `Admission.MakeItemMeans` | src/mempool/submit.rs:857-891 | for any parents, depth, package values and savings: which of them ends in which field, with both rates computed from their own pair |
| `Admitted.BuiltRest` | src/mempool/submit.rs:838-849 | the cost saving is the rounded cost per spend times the number of keys that have a bearer, and the effective cost what remains, both capped |
| `Admission.ResolveParents` | src/mempool/submit.rs:605-626 | the loop over removals: the first coin that is neither on chain nor created by an active item is reported, otherwise the parents are exactly the creators of the off-chain coins |
| `Admission.MissingIff` | src/mempool/submit.rs:614-625 | dependency resolution succeeds if and only if every spent coin is on chain or created by an active item |
| `Admission.MissingFirst` | src/mempool/submit.rs:605-626 | the coin that is reported is the first unknown one |
| `Admission.ParentsMeans` | src/mempool/submit.rs:605-626 | a parent is exactly who the index names as creator of a spent coin that is not on chain |
| `Admission.ComputeDepth` | src/mempool/submit.rs:628-641 | 0 without parents, else one more than the deepest active parent |
| `Admission.FindCycle` | src/mempool/submit.rs:655-676 | the worklist over recorded parents finds the newcomer if and only if it is reachable from its parents |
| `Admission.FamilyRefusalMeans` | src/mempool/submit.rs:598-676 | each family check refuses exactly under its condition, in this order and with these values: more spends than the limit, a coin that is neither on chain nor created, more depth than the limit, the newcomer among its own ancestors |
| `Admission.PackageSums` | src/mempool/submit.rs:677-702 | own value plus the wrapping sum of the parents' package values, saturating |
| `Admission.PackageValueMeans` | src/mempool/submit.rs:677-702 | own value plus the parents' sum modulo 2^64, capped at the largest u64 |
| `Admission.CheckConflicts` | src/mempool/submit.rs:726-813 | conflicts exclude coins whose identical spend already has a bearer; the first violated replacement rule is reported |
| `Admission.ConflictIff` | src/mempool/submit.rs:726-757 | an item conflicts if and only if the index names it as spender of one of the newcomer's coins for which no dedup key of the newcomer has a bearer |
| `Admission.ReplaceAll` | src/mempool/submit.rs:823-825 | cascading from every conflict in turn removes exactly the conflicts' subtrees, each id once, children first |
| `Admission.MakeRoom` | src/mempool/submit.rs:893-907 | capacity eviction runs only when the newcomer does not fit already |
| `Admission.SavingBound` | src/mempool/submit.rs:829-848 | sharing at most all its spends saves a bundle at most its own cost |
| `Admission.EffectiveCostBound` | src/mempool/submit.rs:842-849 | unless the virtual cost wrapped, the effective cost is the exact difference and covers the penalty for all spends |
| `Admission.DedupedBound` | src/mempool/submit.rs:838-841 | at most all keys are shared, and all of them exactly when every key has a bearer |
| `Admitted.CommitKeeps` | src/mempool/submit.rs:582-934 | every commit, whatever it displaces and answers, keeps every index invariant and both limits: total cost within max_total_cost, total spends within max_spends_per_block |
| `Admitted.CommitShallow` | src/mempool/submit.rs:643-654 | no active item is deeper than the configured maximum |
| `Admitted.CommitNoDoubleSpend` | src/mempool/submit.rs:726-827 | with dedup off, a commit keeps coin_index and mempool_coins the exact inverses of the active removals and additions |
| `Admitted.ReadyToInsert` | src/mempool/submit.rs:893-922 | what `insert` relies on holds when a commit reaches it: fresh id, room for cost and spends, no cycle |
| `Admitted.RefusedUnchangedIff` | src/mempool/submit.rs:900-919 | a turned-away submission leaves the pool untouched if and only if an early check refuses it, or nothing conflicts with it and nobody would be squeezed out for it; all known before the commit |
| `Rbf.ConflictIdsFacts` | src/mempool/submit.rs:735-757 | the conflict list names each owner of an unshared coin once |
| `Rbf.FindConflicts` | src/mempool/submit.rs:735-757 | the filtering loop computes that list, in order of first appearance |
| `Rbf.ConflictIdsOrder` | src/mempool/submit.rs:735-757 | each conflict is listed where its first counting coin appears |
| `Rbf.Judge` | src/mempool/submit.rs:759-813 | superset, strictly higher rate, minimum bump: the first violated rule with its error values |
| `Rbf.VerdictMeans` | src/mempool/submit.rs:759-813 | each rule objects exactly under its condition: some conflict spends a coin that the newcomer does not; else the rate is not strictly above that of the wrapped totals; else the fee is below the wrapped fees plus the bump, capped, and the error carries both |
| `Sparing.ConflictsAreCovered` | src/mempool/submit.rs:771-781 | so a submission that changes the active pool spends every coin of everybody it conflicts with |
| `PendingPools.DisplacedAreCovered` | src/mempool/submit.rs:524-530 | and likewise in the pending pool |
| `Rbf.ReplacementPaysMore` | src/mempool/submit.rs:785-813 | in a sound pool, while the replaced fees add up to a u64: an accepted replacement has a cost, and beats the exact aggregate rate of its direct conflicts if and only if those cost anything |
| `Rbf.BumpPaidIff` | src/mempool/submit.rs:785-813 | an accepted replacement pays all replaced fees plus the bump if and only if that sum fits a u64 |
| `Bargains.WrappedTotalsMislead` | src/mempool/submit.rs:767-769 | two admitted bundles with fees 2^64-1 and 1, and a third that pays ten million, replaces both and is admitted |
| `Timelocks.Resolve` | src/mempool/submit.rs:288-345 | the folding loop, wrap-around included |
| `Timelocks.FoldingKeepsMeaning` | src/mempool/submit.rs:288-345 | barring overflow the resolved window is open at (h, t) if and only if every absolute and every relative lock of the bundle holds at (h, t) |
| `Timelocks.ResolvedMeans` | src/mempool/submit.rs:254-345 | the same with everything written out: a relative lock counts from the record of its coin where there is one, and else from the height and time of the submission |
| `Timelocks.RoutedMeans` | src/mempool/submit.rs:347-374 | each answer exactly under its condition, in this order: crossed bounds are impossible, a reached upper bound has expired, a lower bound ahead waits, all else is active |
| `Timelocks.LowerLockExactIff` | src/mempool/submit.rs:327-334 | a relative lower bound keeps its meaning if and only if its sum fits a u64 |
| `Timelocks.UpperLockExactIff` | src/mempool/submit.rs:335-344 | so does a relative upper bound |
| `Timelocks.ActiveIffOpenNow` | src/mempool/submit.rs:347-374 | a bundle is routed to the active pool if and only if its window is open now |
| `Timelocks.RejectedIffNeverOpen` | src/mempool/submit.rs:347-369 | it is rejected if and only if its window is open at no later height and time, so an admitted window is never empty |
| `Submissions.Announce` | src/mempool/submit.rs:125-173 | fresh exactly when neither remembered, active nor pending; remembered before validation in every case |
| `Submissions.Submit` | src/mempool/submit.rs:109-934 | the whole pipeline: which pool changes, how, and what is answered (`Outcomes`) |
| `Submissions.OnePoolAtMost` | src/mempool/submit.rs:254-374 | a submission changes one pool at most; admission implies the fee, cost and window checks, waiting implies the window is not open yet |
| `Submissions.OutcomeMeans` | src/mempool/submit.rs:125-271 | what is answered before either pool is looked into, in this order and with these values: seen, invalid, fee below the reserve, cost above the limit; nothing changes |
| `Submissions.ScreenedMeans` | src/mempool/submit.rs:236-374 | each of fee, cost, crossed, expired, early and active exactly under its condition |
| `Windows.AdmittedIs` | src/mempool/submit.rs:254-891 | what an admitted submission stores is what validation yielded, each field in its place, under the resolved locks and the height of the submission |
| `Windows.WaitingIs` | src/mempool/submit.rs:470-580 | likewise for one that waits, which is answered with its lower height bound, or 0 |
| `Windows.AdmittedSelectableIff` | src/mempool/submit.rs:288-891 | end to end, barring overflow: an admitted bundle may enter a block at a height and time if and only if all its locks hold there, and they hold at once |
| `Windows.WaitingSelectableIff` | src/mempool/submit.rs:288-580 | end to end for one that waits: the same condition, which does not hold yet |
| `Submissions.SubmissionKeeps` | src/mempool/submit.rs:496-934 | whatever is submitted, both pools keep their invariants and limits |
| `Submissions.ConcludedIds` | src/mempool/submit.rs:496-934 | once validated, a submission adds its own id to one pool at most and no other id to either, whatever the pools have turned into since it was announced |
| `Worlds.UninterruptedIs` | src/mempool/submit.rs:126-180 | a submission nobody comes between is three looks (cache, active pool, pending pool) and, if the bundle is in none of them, its conclusion |
| `Worlds.BothSafeEver` | src/mempool/submit.rs:126-934 | in every history of overlapping submissions, blocks, evictions, removals, resets and timely re-insertions of snapshots, each pool keeps its own invariants and limits |
| `Worlds.BothSafeEverIff` | src/mempool/persistence.rs:117-163 | and with any re-insertions if and only if each of them is timely as seen before it |
| `Crossings.MoveCrosses` | src/mempool/submit.rs:492-934 | one locked section keeps the pools disjoint if and only if it does not cross, as seen before it: a bundle that is active meets a pending pool without objection and with room, one that is pending passes the active pool's checks and gets in, or a snapshot holds an id of the other pool |
| `Crossings.ApartEverIff` | src/mempool/submit.rs:143-173 | throughout a history with timely re-insertions no id is active and pending at once if and only if no move crosses |
| `Worlds.LoneApart` | src/mempool/submit.rs:128-141 | a condition on the schedule that suffices for that: nobody passes the seen cache with a bundle still under way, and nothing is re-inserted that is in the other pool or under way; then no bundle is submitted twice at a time either |
| `Worlds.ApartWhileRemembered` | src/mempool/submit.rs:128-141 | submissions meet that condition while the cache has room, or no bound, and nothing is under way whenever a block or a reset clears it |
| `Twins.ActiveAndPending` | src/mempool/submit.rs:499-503 | a history from the empty pools: a bundle is announced, a block clears the cache, it is announced again; validated against both views of the chain it ends up active and pending |
| `PendingPools.PendingPool.Insert` | src/pools/pending.rs:35-42 | the in-place insertion: items, coin index and cost |
| `PendingPools.PendingPool.Remove` | src/pools/pending.rs:44-51 | the in-place removal |
| `PendingPools.PendingPool.Drain` | src/pools/pending.rs:57-74 | takes out and hands back exactly the items whose lower bounds are met, in any order |
| `PendingPools.DrainedExactly` | src/pools/pending.rs:57-74 | what is left is exactly the items whose lower bounds are not met, with exact index and cost |
| `PendingPools.DrainedMeans` | src/pools/pending.rs:57-74 | item by item: it leaves exactly if no lower bound lies ahead, and otherwise stays as it is |
| `PendingPools.PendingPool.Submit` | src/mempool/submit.rs:499-580 | conflicts, replacement rules, displacement, count and cost limits, insertion |
| `PendingPools.BlockersMeans` | src/mempool/submit.rs:505-519 | in the way is exactly who spends a coin of the newcomer |
| `PendingPools.SubmittedMeans` | src/mempool/submit.rs:499-580 | every answer with the pool that goes with it, exactly under its condition: already there, a violated rule, no room by count or cost in what is left, inserted |
| `PendingPools.SubmittedKeeps` | src/mempool/submit.rs:499-580 | a submission keeps the coin index the exact inverse of the pending removals, the cost the exact sum, and both limits |
| `PendingRuns.PendingRunSafe` | src/pools/pending.rs:35-74 | so does every run of submissions, drains, resets and timely re-insertions of snapshots |
| `PendingRuns.PendingSafeEverIff` | src/mempool/persistence.rs:134-163 | a run with any re-insertions keeps them in every state if and only if each re-insertion is timely as seen before it |
| `PendingRuns.PendingReinsertionSafeIff` | src/mempool/persistence.rs:157-163 | re-inserting a snapshot into whatever the pending pool has become keeps index and cost exact and both limits if and only if there is room, no coin of an item that is not in the snapshot is spent by it, and an item that is costs nothing and brings no coin that the snapshot does not spend |
| `PendingRuns.NothingReinsertable` | src/mempool/persistence.rs:134-163 | which holds of a pool that is still empty |
| `PendingPools.PendingDisjoint` | src/pools/pending.rs:20-21 | no two pending items share a coin |
| `PendingPools.RejectionUnchangedIff` | src/mempool/submit.rs:523-571 | a rejection leaves the pool unchanged if and only if there was nothing to displace or a replacement rule objected |
| `Refusals.RejectionMayDisplace` | src/mempool/submit.rs:560-571 | two submissions to the empty pending pool: the first waits, the second displaces it and is refused for its cost |
| `SeenCaches.SeenCache.Insert` | src/pools/seen.rs:41-53 | refuses a cached id; otherwise set and queue stay equal and hold the most recent max_size acceptances; the eviction loop ends because they agree |
| `SeenCaches.SeenCache.Contains` | src/pools/seen.rs:35-37 | true exactly for the most recent max_size acceptances |
| `SeenCaches.RecentMeans` | src/pools/seen.rs:35-53 | the most recent acceptances, position by position |
| `SeenCaches.SeenCache.Clear` | src/pools/seen.rs:57-60 | forgets everything |
| `Descendants.CollectDescendantsParentMap` | src/mempool/lifecycle.rs:23-38 | the walk without a visited set terminates, and maps exactly the proper descendants, each to a direct parent inside the subtree |
| `Descendants.SubtreeCost` | src/mempool/lifecycle.rs:216-233 | the precomputed cost is the sum over the active subtree, each item once |
| `Lifecycle.CascadeAndRecord` | src/mempool/lifecycle.rs:45-64 | one event per evicted id, the root first with its reason, every other after it in eviction order with a direct parent evicted in the same cascade; the returned dependents are those events' ids in order |
| `Lifecycle.FallbackUnused` | src/mempool/lifecycle.rs:57 | the fallback to the root as reported parent is never taken |
| `Lifecycle.EvictRoots` | src/mempool/lifecycle.rs:308-323 | cascading from every listed root removes exactly their subtrees and reports them; roots already swept away add nothing |
| `Lifecycle.EvictLowestPercent` | src/mempool/lifecycle.rs:166-252 | on return either the cost removed is at least floor(min(total·percent, 2^64−1)/100) or every remaining item is expiry-protected; the last cascade began while that target was missed; nobody close to its height bound is evicted for itself, and no evicted root scored above an unprotected survivor |
| `Lifecycle.EvictCounted` | src/mempool/lifecycle.rs:216-244 | the precomputed subtree cost equals the drop in total cost caused by the cascade |
| `Lifecycle.SettleBlock` | src/mempool/lifecycle.rs:294-349 | removes exactly the subtrees of the items the block confirmed, and then of those of the rest that have reached a height or time bound, with one justified event each (`InTurn`) |
| `Lifecycle.BlockSettled` | src/mempool/lifecycle.rs:294-349 | afterwards every upper bound of every active item lies ahead and, with complete indexes, nothing active spends a confirmed coin |
| `Lifecycle.OnNewBlock` | src/mempool/lifecycle.rs:274-401 | seen cache cleared, active pool settled, every remaining upper bound of height and time ahead, due pending items handed back, events as above |
| `Lifecycle.ExpiredIsReported` | src/mempool/lifecycle.rs:326-349 | an active item that has reached a bound is reported as expired, if it is neither confirmed nor below anything confirmed or expired |
| `Lifecycle.ConfirmedIsReported` | src/mempool/lifecycle.rs:294-323 | a spender of a block's coin that is below no other is reported as confirmed |
| `Lifecycle.ExpiredForGood` | src/mempool/lifecycle.rs:326-349 | whoever is reported as expired has reached a height or time bound, and is open at no later height and time |
| `Lifecycle.PhaseConserves` | src/mempool/lifecycle.rs:294-349 | the reported ids are exactly the items that disappeared |
| `Lifecycle.PhaseNoOrphans` | src/mempool/lifecycle.rs:308-349 | confirmation, expiry and percentage eviction orphan nobody |
| `Persistence.Snapshot` | src/mempool/persistence.rs:57-73 | lists every active and every pending item once, in any order |
| `Persistence.Restore` | src/mempool/persistence.rs:117-164 | cleared, then every listed item inserted one by one, when nothing comes between the locked sections |
| `Persistence.Reinsert` | src/mempool/persistence.rs:149-155 | the second locked section on its own, whatever the pool has become since it was cleared |
| `Persistence.PendingReinsert` | src/mempool/persistence.rs:157-163 | likewise for the pending pool |
| `Persistence.RoundTrip` | src/mempool/persistence.rs:57-155 | for every listing order: same items, dependencies, cost and spend totals; same coin indexes when they were complete; same dependents if and only if no child edge was missing; same fee total if and only if it had not fallen behind |
| `Persistence.QueuesFollowListing` | src/mempool/persistence.rs:149-155 | dedup queues and singleton chains come back in listing order |
| `Persistence.AdmissionOrderRestoresQueues` | src/mempool/persistence.rs:149-155 | and exactly as they were when the listing is in admission order |
| `Persistence.PendingRoundTrip` | src/mempool/persistence.rs:157-163 | the pending pool comes back exactly, whatever the order |
| `Reinsertions.ReinsertionSafeIff` | src/mempool/persistence.rs:149-155 | re-inserting a snapshot into whatever pool there is keeps every index invariant and both limits if and only if no listed id is active, both totals have room for all of it, and the parents named on either side close no cycle |
| `Reinsertions.ReinsertionTotalsIff` | src/pools/active.rs:150-153 | the two limited totals alone stay exact and within their limits if and only if there is room for all of it and no listed item that is active already costs or spends anything |
| `Reinsertions.FreshWhenExact` | src/pools/active.rs:150-153 | so in a pool whose items cost or spend something, totals that are right after a re-insertion prove every listed id fresh |
| `Reinsertions.EmptyReinsertable` | src/mempool/persistence.rs:117-155 | which holds of a pool that is still empty |
| `Reinsertions.ReinsertedTwice` | src/pools/active.rs:150-153 | an item inserted while its id is active is charged twice: the cost total is no longer the sum |
| `Reinsertions.ReinsertionCoinsIff` | src/mempool/persistence.rs:149-155 | complete coin indexes stay complete under a re-insertion if and only if nobody active spends a coin of the snapshot |
| `Reinsertions.ReinsertionScores` | src/mempool/persistence.rs:149-155 | scores cover own rate and recorded direct children after a re-insertion of a snapshot with complete child edges |
| `Reinsertions.ReinsertionKeepsFamily` | src/mempool/persistence.rs:149-155 | two families without a common member make one: depths, packages, edges and scores stay right |
| `Rivals.RivalRun` | src/mempool/persistence.rs:119-155 | a run from the empty pool with dedup off: a bundle is admitted and listed, the pool cleared, a rival for its coin admitted, the listing put back; both end up active and spend the coin |
| `Boundaries.ReturningParentUnlinked` | src/pools/active.rs:132-136 | a parent removed on its own and admitted again is not linked to the children that still name it |
| `Boundaries.RemovalForgetsCoins` | src/pools/active.rs:165-167 | when two active items share a coin, removing either drops the coin from the index although the other still spends it |
| `Boundaries.RemovalKeepsIndexedIff` | src/pools/active.rs:165-167 | when every spent coin is indexed, it still is after removing an item if and only if no other active item shares a coin with that item |
| `BlockSelection.SelectableIffOpen` | src/selection/strategies.rs:34-56 | an item is selectable exactly when its resolved window is open |
| `Strategies.SelSort` | src/selection/strategies.rs:59-107 | each strategy's sort lists the candidates in its chain of comparisons |
| `Strategies.DensityOrder` | src/selection/strategies.rs:61-70 | higher package rate first; then higher fee, lower virtual cost, earlier arrival, smaller id |
| `Strategies.WhaleOrder` | src/selection/strategies.rs:71-83 | higher package fee first; then higher package rate, lower virtual cost, earlier arrival, smaller id |
| `Strategies.CompactOrder` | src/selection/strategies.rs:84-93 | higher package rate first; then lower virtual cost, higher fee, earlier arrival, smaller id |
| `Strategies.AgeOrder` | src/selection/strategies.rs:94-106 | earlier arrival first; then higher package rate, higher fee, smaller id |
| `Strategies.OneOrder` | src/selection/strategies.rs:59-107 | there is only one such list, because every chain ends in the unique id |
| `Strategies.CollectAncestors` | src/selection/strategies.rs:110-126 | exactly the ancestors reachable without passing a selected one, each once |
| `Strategies.CollectSuccessors` | src/selection/strategies.rs:172-190 | exactly the later members of the chain that are candidates and not selected, each once |
| `Strategies.SuccessorsAre` | src/selection/strategies.rs:172-190 | these are the unselected candidates admitted after the item under the same launcher, all of them |
| `Strategies.NoSuccessorsFor` | src/selection/strategies.rs:172-190 | an item without a launcher, or in no recorded chain, pulls no successor along |
| `Strategies.Consider` | src/selection/strategies.rs:147-249 | one round of the packing loop: all or nothing for the item, its unselected ancestors and its chain successors |
| `Strategies.SelGreedy` | src/selection/strategies.rs:130-258 | the pass is the fold of that round over the sorted candidates |
| `Strategies.SelBest` | src/selection/strategies.rs:263-277 | the first set that no other beats on fees, then cost, then count |
| `Strategies.BeatsMeans` | src/selection/strategies.rs:263-277 | more fees beat; then less cost, then fewer bundles |
| `Strategies.OneBest` | src/selection/strategies.rs:263-277 | there is only one |
| `Packing.PackSafe` | src/selection/strategies.rs:204-248 | whatever the chains, the true cost of the selection never exceeds the tracked cost, nor that the budget |
| `Packing.PackSpends` | src/selection/strategies.rs:204-248 | neither do the spend counts, as long as the spends of one batch add up to a u64 |
| `Packing.PackClosed` | src/selection/strategies.rs:152-159 | every parent of a selected item is selected, for every order and all budgets, when chains are closed: whoever a candidate pulls along has its parents among the candidate, its ancestors and the rest of its chain |
| `Packing.ClosedIff` | src/selection/strategies.rs:152-202 | every selection in every order and under all budgets includes all parents if and only if chains are closed |
| `Packing.FollowersClosed` | src/selection/strategies.rs:172-202 | chains are closed in particular when later chain members depend on nothing but their predecessor, itself a candidate |
| `Packing.FinishedPass` | src/selection/strategies.rs:147-249 | where nothing is free, a finished pass may consist of any one complete candidate and exactly what it pulls along, so an open chain shows in a finished selection |
| `Packing.PackApart` | src/selection/strategies.rs:218-228 | items may share coins, but the selection spends none twice, as long as no candidate pulls along a clash: the test against the coins spent so far does the rest |
| `Packing.CoinsOnceIff` | src/selection/strategies.rs:218-228 | with closed chains no selection in any order under any budgets spends a coin twice if and only if no complete candidate pulls along a clash |
| `Overtaking.ChainMayOutrunParents` | src/selection/strategies.rs:172-202 | three submissions from the empty pool and the block selected there: both members of a singleton chain, without the second one's other parent |
| `Packing.Maximal` | src/selection/strategies.rs:147-249 | with closed chains and nobody both above a candidate and behind it in its chain: adding any unselected candidate whose ancestors are all candidates, with whatever it pulls along, breaks a budget or reuses a spent coin, although the pass never revisits a skipped item |
| `Packing.UnchainedUntangled` | src/selection/strategies.rs:172-190 | without singleton chains that is always so, and a candidate pulls along its ancestors only |
| `Packing.BlockedStays` | src/selection/strategies.rs:212-228 | selecting more never unblocks a skipped candidate |
| `Ordering.ComputeLayer` | src/selection/ordering.rs:22-53 | the memoised recursion ends and every memoised layer is 0 or one more than the highest selected parent's |
| `Ordering.TopologicalOrder` | src/selection/ordering.rs:59-83 | lists the selection once each, by layer, rate, age and id |
| `Ordering.LayerIsLongestPath` | src/selection/ordering.rs:22-53 | a layer is the length of the longest path up the parents that stays inside the selection |
| `Ordering.TopologicalMeans` | src/selection/ordering.rs:66-82 | lower layer first; then higher own rate, earlier arrival, smaller id |
| `Ordering.ParentsFirst` | src/selection/ordering.rs:59-83 | every selected parent comes strictly before its child |
| `Ordering.OneTopological` | src/selection/ordering.rs:66-82 | there is only one such list |
| `BlockSelection.SelectForBlock` | src/mempool/selection.rs:38-107 | filter, four passes, comparator and ordering composed (`IsBlock`) |
| `BlockSelection.TemplateMeans` | src/mempool/selection.rs:38-60 | what is selected from: the pool as it is, the given budgets, and every active item whose four bounds are met, nobody else |
| `BlockSelection.BlockIsBest` | src/mempool/selection.rs:57-97 | the block lists what the first of the density, whale, compact and age passes selected that no other beats on fees, cost and number |
| `BlockSelection.OneBlock` | src/mempool/selection.rs:38-107 | the block is a function of the pool's contents: any two iteration orders of the hash maps give the same list |
| `BlockSelection.BlockWithinBudgets` | src/mempool/selection.rs:38-107 | distinct selectable items within the cost budget, and within the spend limit if the pool as a whole is or no batch's spends leave the u64 range |
| `BlockSelection.AncestorsFirst` | src/mempool/selection.rs:38-107 | every ancestor of a listed item is listed strictly earlier, where chains are closed |
| `BlockSelection.NoCoinTwice` | src/mempool/selection.rs:38-107 | the block spends no coin twice although active items may share coins, as long as no candidate pulls along a clash |
| `BlockSelection.BlockMaximal` | src/mempool/selection.rs:57-97 | the chosen block is maximal in the sense of `Packing.Maximal` |
| `BlockSelection.NoPassEarnsMore` | src/mempool/selection.rs:57-97 | no strategy's pass earns more fees than the chosen block |
| `FeeEstimates.EstimateMinFee` | src/mempool/fee.rs:29-69 | zero below 80% utilisation, the fixed rate up to 100%, one unit above the lowest active rate beyond |
| `FeeEstimates.FullTier` | src/mempool/fee.rs:53-63 | barring saturation the full-tier estimate is worth at most lowest+1, one mojo more always beats the lowest rate, and the estimate itself beats it if and only if the product divides evenly |
| `FeeEstimates.FullTierMayOnlyMatch` | src/mempool/fee.rs:51-63 | concrete cost for which the estimate only matches the lowest rate |
| `FeeEstimates.PenaltyIgnoredIff` | src/mempool/fee.rs:26-30 | while both sums fit a u64, the estimate charges the documented cost, with the configured penalty, at every rate if and only if there are no spends or the configured penalty is the constant 500,000 |
| `FeeEstimates.PenaltyIgnored` | src/mempool/fee.rs:26-30 | one spend under a configured penalty of 1: 500,000 is estimated where 1 is documented |
| `Runs.EveryStateSafe` | src/pools/active.rs:30-82 | in every state of every run of commits, blocks, percentage evictions, plain removals, resets and timely re-insertions of snapshots: all index invariants, exact cost and spend totals within both limits, acyclic graph, bounded depth |
| `Runs.SafeEverIff` | src/mempool/persistence.rs:117-155 | a run with any re-insertions is safe in every state if and only if each of them is timely: ids fresh, room for all, no cycle, as seen before it |
| `Runs.UnbrokenTimely` | src/mempool/persistence.rs:117-155 | restorations that nothing comes between need no condition |
| `Runs.NoCyclesEver` | src/mempool/submit.rs:655-676 | in no state does a walk along recorded parents return to its start |
| `Runs.FeesExactEverIff` | src/pools/active.rs:150-153 | the fee total is the exact sum in every state of a timely run if and only if every such sum fits a u64 |
| `Runs.NoDoubleSpendEver` | src/mempool/submit.rs:584-827 | with dedup off, and re-insertions that are timely and meet no rival for a coin: a coin has at most one active spender and one active creator at all times, and the indexes name exactly them |
| `Runs.IndexFullEverIff` | src/mempool/persistence.rs:119-155 | with dedup off, the coin indexes are complete in every state of a timely run if and only if no re-insertion meets a rival for a coin of its snapshot |
| `Runs.QueuesEver` | src/pools/active.rs:58-72 | at all times bearer then waiters of a key are exactly the active items carrying it, in admission order, without duplicates, with no entry when there are none; likewise singleton chains |
| `Runs.EveryStateFamily` | src/mempool/submit.rs:605-929 | no item is ever orphaned, and depths, packages and scores are right in every state, in timely runs whose plain removals hit leaves and whose commits, as seen before each of them, spare the family (`Families.CommitFamilyIff`); early refusals, blocks, percentage evictions and re-insertions need nothing more |
| `Runs.EveryScoreWitnessed` | src/pools/active.rs:268-322 | in every state of an add-only run each score is the item's own rate or the package rate of one of its transitive descendants, so at most their maximum |
| `Runs.EveryScoreCovers` | src/pools/active.rs:236-322 | in every state of every timely run, whatever is removed and whoever is orphaned, a score covers the own rate and the recorded direct children's package rates, as long as no newcomer that gets in may displace its own parents and no snapshot that lacks a child edge is put back |
| `Runs.BlocksEver` | src/mempool/selection.rs:38-107 | a block selected in any reachable state, dedup on or off, chains or not, lists distinct active items minable at that point, within the cost budget and the spend limit; no coin twice where no candidate pulls along a clash; ancestors first where chains are closed |
| `Runs.PlainBlocks` | src/mempool/selection.rs:38-107 | with dedup off and no rivals no candidate ever pulls along a clash |
| `Runs.UnchainedBlocks` | src/mempool/selection.rs:38-107 | without singleton lineages chains are closed |
| `Funding.EveryItemFunded` | src/mempool/submit.rs:605-626 | beside a chain the records are true to, with dedup off, considerate acts, and timely re-insertions without rivals: whatever an active item spends is on chain or created by one of its active parents, in every state |
| `Funding.BlocksExecuteEver` | src/mempool/selection.rs:38-107 | so every block selected there, with closed chains, can be executed in its listed order: each item finds all its coins on chain or created before, and not yet spent |

## Left out

- CLVM execution, BLS verification, puzzle parsing and SHA-256: foreign code; their results are arbitrary inputs.
- The conflict cache (src/pools/conflict.rs): a capped map; a failed replacement's entry in it, its duplicate check and the retries a block hands back are not modelled.
- The floating-point fee tracker (src/fee/tracker.rs) and its part of snapshots and blocks.
- Hooks, custom selection strategies and the policy object: callbacks; events are kept as a list, the policy as a verdict.
- Queries, statistics, serde, the config builder and `force_insert`: lookups, plumbing or deliberate bypasses of preconditions.
- Locks: each locked section is one step; the phases between them see arbitrary later states.
- Depth and layer counters are unbounded numbers, not u32; they would wrap only beyond 2^32 generations.
- Spend counts are u64, as on a 64-bit target.
- A memory-exhausting number of pending or active items, and panics of debug builds on overflow.
- Items carry the launcher of their singleton lineage and nothing else of it; conditions are kept only as the resolved window.
- Admitted.CommitKeeps: assumes limits below 2^64 − 1, where a saturated total could no longer be told from a full pool.
- Runs.EveryStateFamily: speaks about commits that spare the family; `Families.CommitFamilyIff` says that no other commit can be relied on to.
- Funding.EveryItemFunded: speaks about chains on which a coin disappears only through a reported block, and snapshots put back while their coins still exist.
- Rbf.ReplacementPaysMore: compares with the direct conflicts, as the code does; dependents evicted with them are not compared.
