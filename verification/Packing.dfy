/** What a greedy pass guarantees: budgets, ancestor closure and maximality. */
module Packing {
  import opened Prelude
  import opened Items
  import opened Sums
  import opened Graph
  import opened PoolInvariants
  import opened Strategies

  // ── What one candidate may pull along ──

  /** The candidates behind `id` in its singleton chain. */
  ghost function Behind(t: Template, id: Id): set<Id>
    requires id in t.items
  {
    Elems(ChainAfter(t.items, t.chains, id)) * t.cands
  }

  /** Everything a pass may take together with `id`. */
  ghost function Pulled(t: Template, id: Id): set<Id>
    requires id in t.items
  {
    {id} + Ancestors(t.deps, id) * t.cands + Behind(t, id)
  }

  lemma NewWithin(t: Template, sel: set<Id>, id: Id)
    requires id in t.items
    ensures NewAncestors(t, sel, id) <= Ancestors(t.deps, id) <= NewAncestors(t, sel, id) + Reach(t.deps, {}, sel)
    ensures NewSuccessors(t, sel, id) == Behind(t, id) - sel
  {
    var all := NewAncestors(t, sel, id) + Reach(t.deps, {}, sel);
    ReachCovers(t.deps, {}, Succ(t.deps, id));
    ReachCovers(t.deps, sel, Succ(t.deps, id));
    ReachCovers(t.deps, {}, sel);
    ReachLeast(t.deps, sel, Succ(t.deps, id), Ancestors(t.deps, id));
    ReachLeast(t.deps, {}, Succ(t.deps, id), all);
  }

  // ── Budgets: for every pool, chains or not ──

  /** Selected ids are candidates, and the tracked cost bounds the true sum and respects its budget. */
  ghost predicate Safe(t: Template, st: Packed)
    requires t.cands <= t.items.Keys
  {
    st.ids <= t.cands && Sum(Costs(t.items), st.ids) <= st.cost <= t.maxCost
  }

  /** Nothing overlaps so often that the spend counts of one batch leave the u64 range. */
  ghost predicate SpendsAddUp(t: Template)
    requires t.cands <= t.items.Keys
  {
    forall id :: id in t.cands ==>
      Added(Spends(t.items), id, Ancestors(t.deps, id) * t.cands, Behind(t, id)) <= U64_MAX
  }

  ghost predicate SpendsSafe(t: Template, st: Packed)
    requires t.cands <= t.items.Keys
  {
    st.ids <= t.cands && Sum(Spends(t.items), st.ids) <= st.spends <= t.maxSpends
  }

  lemma BatchSum(m: map<Id, nat>, sel: set<Id>, id: Id, ancs: set<Id>, succs: set<Id>)
    requires sel <= m.Keys && id in m && ancs <= m.Keys && succs <= m.Keys
    ensures sel + ({id} + ancs + succs) <= m.Keys
    ensures Sum(m, sel + ({id} + ancs + succs)) <= Sum(m, sel) + Added(m, id, ancs, succs)
    ensures Added(m, id, ancs, succs) <= 2 * Total(m) || id in ancs
  {
    SumUnion(m, sel, {id} + ancs + succs);
    SumUnion(m, {id} + ancs, succs);
    SumUnion(m, {id}, ancs);
    SumPull(m, {id}, id);
    SumMono(m, succs, m.Keys);
    SumMono(m, {id} + ancs, m.Keys);
  }

  lemma SatBound(before: nat, after: nat, tracked: nat, added: nat)
    requires before <= tracked && after <= before + added && after <= U64_MAX
    ensures after <= SatAdd(tracked, added)
  {
  }

  lemma NotOwnAncestor(t: Template, sel: set<Id>, id: Id)
    requires Acyclic(t.deps)
    ensures id !in NewAncestors(t, sel, id)
  {
    ReachIrreflexive(t.deps, id);
    ReachCovers(t.deps, {}, Succ(t.deps, id));
    ReachLeast(t.deps, sel, Succ(t.deps, id), Ancestors(t.deps, id));
  }

  lemma BatchTracked(m: map<Id, nat>, sel: set<Id>, tracked: nat, id: Id, ancs: set<Id>, succs: set<Id>)
    requires sel <= m.Keys && id in m && ancs <= m.Keys && succs <= m.Keys && Total(m) <= U64_MAX
    requires Sum(m, sel) <= tracked
    ensures sel + ({id} + ancs + succs) <= m.Keys
    ensures Sum(m, sel + ({id} + ancs + succs)) <= SatAdd(tracked, Added(m, id, ancs, succs))
  {
    BatchSum(m, sel, id, ancs, succs);
    SumMono(m, sel + ({id} + ancs + succs), m.Keys);
    SatBound(Sum(m, sel), Sum(m, sel + ({id} + ancs + succs)), tracked, Added(m, id, ancs, succs));
  }

  lemma StepSafe(t: Template, st: Packed, id: Id)
    requires Usable(t) && Safe(t, st) && id in t.cands
    ensures Safe(t, PackStep(t, st, id))
  {
    if Taken(t, st, id) {
      BatchTracked(Costs(t.items), st.ids, st.cost, id, NewAncestors(t, st.ids, id), NewSuccessors(t, st.ids, id));
    }
  }

  /** Whatever the chains, the true cost of the selection stays within its budget. */
  lemma {:induction false} PackSafe(t: Template, xs: seq<Id>, n: nat)
    requires Usable(t) && Elems(xs) <= t.cands && n <= |xs|
    ensures Safe(t, Pack(t, xs, n))
  {
    if n > 0 {
      PackSafe(t, xs, n - 1);
      assert xs[n - 1] in Elems(xs);
      StepSafe(t, Pack(t, xs, n - 1), xs[n - 1]);
    }
  }

  lemma AddedFits(t: Template, sel: set<Id>, id: Id)
    requires t.cands <= t.items.Keys && SpendsAddUp(t) && id in t.cands && NewAncestors(t, sel, id) <= t.cands
    ensures Added(Spends(t.items), id, NewAncestors(t, sel, id), NewSuccessors(t, sel, id)) <= U64_MAX
  {
    NewWithin(t, sel, id);
    SumMono(Spends(t.items), NewAncestors(t, sel, id), Ancestors(t.deps, id) * t.cands);
    SumMono(Spends(t.items), NewSuccessors(t, sel, id), Behind(t, id));
  }

  lemma TakenSpends(t: Template, st: Packed, id: Id)
    requires t.cands <= t.items.Keys && id in t.cands && Taken(t, st, id)
    ensures var added := Added(Spends(t.items), id, NewAncestors(t, st.ids, id), NewSuccessors(t, st.ids, id));
      SatAdd(st.spends, Wrap(added)) <= t.maxSpends && PackStep(t, st, id).spends == SatAdd(st.spends, added)
  {
  }

  lemma StepSpends(t: Template, st: Packed, id: Id)
    requires Usable(t) && SpendsAddUp(t) && SpendsSafe(t, st) && id in t.cands
    ensures SpendsSafe(t, PackStep(t, st, id))
  {
    if Taken(t, st, id) {
      TakenMeans(t, st, id);
      TakenSpends(t, st, id);
      AddedFits(t, st.ids, id);
      BatchTracked(Spends(t.items), st.ids, st.spends, id, NewAncestors(t, st.ids, id), NewSuccessors(t, st.ids, id));
    }
  }

  lemma {:induction false} PackSpends(t: Template, xs: seq<Id>, n: nat)
    requires Usable(t) && SpendsAddUp(t) && Elems(xs) <= t.cands && n <= |xs|
    ensures SpendsSafe(t, Pack(t, xs, n))
  {
    if n > 0 {
      PackSpends(t, xs, n - 1);
      assert xs[n - 1] in Elems(xs);
      StepSpends(t, Pack(t, xs, n - 1), xs[n - 1]);
    }
  }

  // ── Ancestor closure ──

  ghost predicate ParentsIncluded(t: Template, ids: set<Id>) { forall x :: x in ids ==> Succ(t.deps, x) <= ids }

  /** A candidate the pass can take at all: all its ancestors are candidates. */
  ghost predicate Complete(t: Template, id: Id) { id in t.cands && Ancestors(t.deps, id) <= t.cands }

  /** Whoever a candidate pulls along finds its parents among those taken with it. */
  ghost predicate ChainClosed(t: Template)
    requires t.cands <= t.items.Keys
  {
    forall id, s :: Complete(t, id) && s in Behind(t, id) ==> Succ(t.deps, s) <= Pulled(t, id)
  }

  lemma TakenMeans(t: Template, st: Packed, id: Id)
    requires t.cands <= t.items.Keys && id in t.cands && Taken(t, st, id)
    ensures id !in st.ids && NewAncestors(t, st.ids, id) <= t.cands
    ensures PackStep(t, st, id).ids == st.ids + Batch(t, st.ids, id)
    ensures PackStep(t, st, id).spent == st.spent + SpentBy(Removals(t.items), Batch(t, st.ids, id))
    ensures SpentBy(Removals(t.items), Batch(t, st.ids, id)) !! st.spent
  {
  }

  /** On top of a closed selection, a batch is everything the candidate pulls along. */
  lemma BatchComplete(t: Template, sel: set<Id>, id: Id)
    requires t.cands <= t.items.Keys && id in t.cands && sel <= t.cands && ParentsIncluded(t, sel)
    requires NewAncestors(t, sel, id) <= t.cands
    ensures Complete(t, id) && sel + Batch(t, sel, id) == sel + Pulled(t, id)
  {
    NewWithin(t, sel, id);
    ReachLeast(t.deps, {}, sel, sel);
  }

  lemma TakenComplete(t: Template, st: Packed, id: Id)
    requires t.cands <= t.items.Keys && id in t.cands && st.ids <= t.cands && ParentsIncluded(t, st.ids) && Taken(t, st, id)
    ensures Complete(t, id)
    ensures PackStep(t, st, id).ids == st.ids + Pulled(t, id)
  {
    TakenMeans(t, st, id);
    BatchComplete(t, st.ids, id);
  }

  lemma PulledClosed(t: Template, sel: set<Id>, id: Id)
    requires t.cands <= t.items.Keys && ChainClosed(t) && Complete(t, id) && ParentsIncluded(t, sel)
    ensures ParentsIncluded(t, sel + Pulled(t, id))
  {
    ReachCovers(t.deps, {}, Succ(t.deps, id));
  }

  lemma StepClosed(t: Template, st: Packed, id: Id)
    requires t.cands <= t.items.Keys && ChainClosed(t) && id in t.cands && st.ids <= t.cands && ParentsIncluded(t, st.ids)
    ensures PackStep(t, st, id).ids <= t.cands && ParentsIncluded(t, PackStep(t, st, id).ids)
  {
    if Taken(t, st, id) {
      TakenComplete(t, st, id);
      PulledClosed(t, st.ids, id);
    }
  }

  lemma {:induction false} PackClosed(t: Template, xs: seq<Id>, n: nat)
    requires t.cands <= t.items.Keys && ChainClosed(t) && Elems(xs) <= t.cands && n <= |xs|
    ensures Pack(t, xs, n).ids <= t.cands && ParentsIncluded(t, Pack(t, xs, n).ids)
  {
    if n > 0 {
      PackClosed(t, xs, n - 1);
      assert xs[n - 1] in Elems(xs);
      StepClosed(t, Pack(t, xs, n - 1), xs[n - 1]);
    }
  }

  function Budgeted(t: Template, maxCost: U64, maxSpends: U64): Template { t.(maxCost := maxCost, maxSpends := maxSpends) }

  /** With room for everything, the first complete candidate is taken with all it pulls along. */
  lemma FirstTaken(t: Template, id: Id)
    requires t.cands <= t.items.Keys && Complete(t, id)
    ensures Elems([id]) <= t.cands
    ensures Pack(Budgeted(t, U64_MAX, U64_MAX), [id], 1).ids == Pulled(t, id)
  {
    var rich := Budgeted(t, U64_MAX, U64_MAX);
    assert Elems([id]) == {id};
    assert Pack(rich, [id], 0) == EMPTY_BLOCK;
    FirstStep(rich, id);
  }

  lemma FirstStep(t: Template, id: Id)
    requires t.cands <= t.items.Keys && Complete(t, id)
    requires SatAdd(0, Added(Costs(t.items), id, Ancestors(t.deps, id), Behind(t, id))) <= t.maxCost
    requires Wrap(Added(Spends(t.items), id, Ancestors(t.deps, id), Behind(t, id))) <= t.maxSpends
    ensures PackStep(t, EMPTY_BLOCK, id).ids == Pulled(t, id)
    ensures PackStep(t, EMPTY_BLOCK, id).cost == SatAdd(0, Added(Costs(t.items), id, Ancestors(t.deps, id), Behind(t, id)))
  {
    assert NewSuccessors(t, {}, id) == Behind(t, id);
    assert Taken(t, EMPTY_BLOCK, id);
    TakenComplete(t, EMPTY_BLOCK, id);
  }

  /** Every selection, in every order and under all budgets, contains the parents of its members exactly then. */
  lemma ClosedIff(t: Template)
    requires t.cands <= t.items.Keys
    ensures ChainClosed(t) <==> forall maxCost, maxSpends, xs, n: nat :: Elems(xs) <= t.cands && n <= |xs| ==>
      ParentsIncluded(t, Pack(Budgeted(t, maxCost, maxSpends), xs, n).ids)
  {
    if ChainClosed(t) {
      forall maxCost, maxSpends, xs, n: nat | Elems(xs) <= t.cands && n <= |xs|
        ensures ParentsIncluded(t, Pack(Budgeted(t, maxCost, maxSpends), xs, n).ids)
      {
        SameChains(t, maxCost, maxSpends);
        PackClosed(Budgeted(t, maxCost, maxSpends), xs, n);
      }
    } else {
      var id, s :| Complete(t, id) && s in Behind(t, id) && !(Succ(t.deps, s) <= Pulled(t, id));
      FirstTaken(t, id);
      assert !ParentsIncluded(t, Pack(Budgeted(t, U64_MAX, U64_MAX), [id], 1).ids);
    }
  }

  /** Budgets have no say in who follows whom. */
  lemma SameChains(t: Template, maxCost: U64, maxSpends: U64)
    requires t.cands <= t.items.Keys
    ensures var u := Budgeted(t, maxCost, maxSpends);
      && (ChainClosed(t) ==> ChainClosed(u))
      && forall id :: id in t.items ==> Behind(u, id) == Behind(t, id) && Pulled(u, id) == Pulled(t, id)
  {
    var u := Budgeted(t, maxCost, maxSpends);
    forall id, s | ChainClosed(t) && Complete(u, id) && s in Behind(u, id) ensures Succ(u.deps, s) <= Pulled(u, id) {
      assert Complete(t, id) && s in Behind(t, id);
    }
  }

  // A finished pass: the list names every candidate, and the cost budget is used up by the first batch.

  lemma UsedUp(t: Template, st: Packed, id: Id)
    requires t.cands <= t.items.Keys && id in t.items && st.cost == t.maxCost < U64_MAX && t.items[id].virtualCost > 0
    ensures PackStep(t, st, id) == st
  {
  }

  lemma {:induction false} NothingMore(t: Template, xs: seq<Id>, n: nat)
    requires t.cands <= t.items.Keys && Elems(xs) <= t.cands && 0 < n <= |xs| && t.maxCost < U64_MAX
    requires (forall b :: b in t.cands ==> t.items[b].virtualCost > 0) && Pack(t, xs, 1).cost == t.maxCost
    ensures Pack(t, xs, n) == Pack(t, xs, 1)
  {
    if n > 1 {
      NothingMore(t, xs, n - 1);
      assert xs[n - 1] in Elems(xs);
      UsedUp(t, Pack(t, xs, n - 1), xs[n - 1]);
    }
  }

  /** Where nothing is free, a finished pass may consist of any one complete candidate and all it pulls along. */
  lemma FinishedPass(t: Template, id: Id, xs: seq<Id>) returns (maxCost: U64)
    requires Usable(t) && Complete(t, id) && 2 * Total(Costs(t.items)) < U64_MAX
    requires Elems(xs) == t.cands && xs != [] && xs[0] == id && forall b :: b in t.cands ==> t.items[b].virtualCost > 0
    ensures Pack(Budgeted(t, maxCost, U64_MAX), xs, |xs|).ids == Pulled(t, id)
  {
    NotOwnAncestor(t, {}, id);
    BatchSum(Costs(t.items), {}, id, Ancestors(t.deps, id), Behind(t, id));
    maxCost := Added(Costs(t.items), id, Ancestors(t.deps, id), Behind(t, id));
    var u := Budgeted(t, maxCost, U64_MAX);
    assert Pack(u, xs, 0) == EMPTY_BLOCK && Behind(u, id) == Behind(t, id);
    FirstStep(u, id);
    NothingMore(u, xs, |xs|);
  }

  /** Later chain members hang on nothing but their predecessor, itself a candidate. */
  ghost predicate FollowsChains(t: Template) {
    forall l, j :: l in t.chains && 0 < j < |t.chains[l]| && t.chains[l][j] in t.cands
      ==> Succ(t.deps, t.chains[l][j]) <= {t.chains[l][j - 1]} * t.cands
  }

  lemma FollowersClosed(t: Template)
    requires t.cands <= t.items.Keys && FollowsChains(t)
    ensures ChainClosed(t)
  {
    forall id, s | Complete(t, id) && s in Behind(t, id) ensures Succ(t.deps, s) <= Pulled(t, id) {
      var chain := t.chains[t.items[id].launcher.value];
      AfterFacts(chain, id);
      assert s in After(chain, id);
      var j :| 0 < j < |chain| && chain[j] == s && (chain[j - 1] == id || chain[j - 1] in After(chain, id));
      assert Succ(t.deps, chain[j]) <= {chain[j - 1]} * t.cands;
    }
  }

  // ── Coins ──

  /** No two of them spend the same coin. */
  ghost predicate Apart(items: map<Id, Item>, ids: set<Id>) {
    forall a, b, c ::
      a in ids && b in ids && a in items && b in items && c in items[a].removals && c in items[b].removals ==> a == b
  }

  /** What a candidate may pull along spends no coin twice; incomplete candidates count only where chains are not closed. */
  ghost predicate BatchesApart(t: Template)
    requires t.cands <= t.items.Keys
  {
    forall id :: id in t.cands && (Complete(t, id) || !ChainClosed(t)) ==> Apart(t.items, Pulled(t, id))
  }

  ghost predicate CoinsOnce(t: Template, st: Packed) {
    Apart(t.items, st.ids) && st.spent == SpentBy(Removals(t.items), st.ids)
  }

  /** The clash test keeps a batch away from what is selected; the batch itself must be free of clashes. */
  lemma StepApart(t: Template, st: Packed, id: Id)
    requires t.cands <= t.items.Keys && id in t.cands && CoinsOnce(t, st) && Apart(t.items, Pulled(t, id))
    ensures CoinsOnce(t, PackStep(t, st, id))
  {
    if Taken(t, st, id) {
      var batch, own := Batch(t, st.ids, id), Removals(t.items);
      TakenMeans(t, st, id);
      NewWithin(t, st.ids, id);
      assert batch <= Pulled(t, id);
      SpentUnion(own, st.ids, batch);
      forall a, b, c | a in st.ids + batch && b in st.ids + batch && a in t.items && b in t.items
          && c in t.items[a].removals && c in t.items[b].removals
        ensures a == b
      {
        assert c in own[a] && c in own[b];
        assert a in st.ids ==> c in SpentBy(own, st.ids);
        assert b in st.ids ==> c in SpentBy(own, st.ids);
        assert a in batch ==> c in SpentBy(own, batch);
        assert b in batch ==> c in SpentBy(own, batch);
      }
    }
  }

  /** Selected so far: no coin twice, and parents included as far as chains are closed. */
  ghost predicate Orderly(t: Template, st: Packed)
    requires t.cands <= t.items.Keys
  {
    CoinsOnce(t, st) && (ChainClosed(t) ==> st.ids <= t.cands && ParentsIncluded(t, st.ids))
  }

  lemma StepOrderly(t: Template, st: Packed, id: Id)
    requires t.cands <= t.items.Keys && BatchesApart(t) && id in t.cands && Orderly(t, st)
    ensures Orderly(t, PackStep(t, st, id))
  {
    if Taken(t, st, id) {
      if ChainClosed(t) {
        TakenComplete(t, st, id);
        StepClosed(t, st, id);
      }
      StepApart(t, st, id);
    }
  }

  lemma {:induction false} PackApart(t: Template, xs: seq<Id>, n: nat)
    requires t.cands <= t.items.Keys && BatchesApart(t) && Elems(xs) <= t.cands && n <= |xs|
    ensures Orderly(t, Pack(t, xs, n))
  {
    if n > 0 {
      PackApart(t, xs, n - 1);
      assert xs[n - 1] in Elems(xs);
      StepOrderly(t, Pack(t, xs, n - 1), xs[n - 1]);
    }
  }

  /** With closed chains, no selection in any order under any budgets spends a coin twice exactly then. */
  lemma CoinsOnceIff(t: Template)
    requires t.cands <= t.items.Keys && ChainClosed(t)
    ensures BatchesApart(t) <==> forall maxCost, maxSpends, xs, n: nat :: Elems(xs) <= t.cands && n <= |xs| ==>
      Apart(t.items, Pack(Budgeted(t, maxCost, maxSpends), xs, n).ids)
  {
    if BatchesApart(t) {
      forall maxCost, maxSpends, xs, n: nat | Elems(xs) <= t.cands && n <= |xs|
        ensures Apart(t.items, Pack(Budgeted(t, maxCost, maxSpends), xs, n).ids)
      {
        SameBatches(t, maxCost, maxSpends);
        PackApart(Budgeted(t, maxCost, maxSpends), xs, n);
      }
    } else {
      var id :| id in t.cands && Complete(t, id) && !Apart(t.items, Pulled(t, id));
      FirstTaken(t, id);
      assert !Apart(t.items, Pack(Budgeted(t, U64_MAX, U64_MAX), [id], 1).ids);
    }
  }

  lemma SameBatches(t: Template, maxCost: U64, maxSpends: U64)
    requires t.cands <= t.items.Keys && ChainClosed(t) && BatchesApart(t)
    ensures BatchesApart(Budgeted(t, maxCost, maxSpends))
  {
    var u := Budgeted(t, maxCost, maxSpends);
    SameChains(t, maxCost, maxSpends);
    forall id | id in u.cands && (Complete(u, id) || !ChainClosed(u)) ensures Apart(u.items, Pulled(u, id)) {
      assert Complete(t, id);
    }
  }

  // ── Exact totals and maximality ──

  /** Chains are closed, and nobody is both above a candidate and behind it in its chain. */
  ghost predicate Untangled(t: Template) {
    && t.cands <= t.items.Keys && ChainClosed(t)
    && forall id :: id in t.cands ==> Ancestors(t.deps, id) !! Behind(t, id)
  }

  /** Without chains nothing is tangled, and a candidate pulls along its ancestors only. */
  lemma UnchainedUntangled(t: Template)
    requires t.cands <= t.items.Keys && t.chains == map[]
    ensures Untangled(t)
    ensures forall id :: Complete(t, id) ==> Pulled(t, id) == {id} + Ancestors(t.deps, id)
  {
    ElemsEmpty<Id>([]);
    assert forall id :: id in t.cands ==> Behind(t, id) == {};
  }

  /** With parents included, the unselected ancestors are the ancestors that are not selected. */
  lemma NewAncestorsAre(t: Template, sel: set<Id>, id: Id)
    requires ParentsIncluded(t, sel)
    ensures NewAncestors(t, sel, id) == Ancestors(t.deps, id) - sel
  {
    var news, all := NewAncestors(t, sel, id), Ancestors(t.deps, id);
    ReachCovers(t.deps, sel, Succ(t.deps, id));
    ReachCovers(t.deps, {}, Succ(t.deps, id));
    ReachLeast(t.deps, sel, Succ(t.deps, id), all);
    ReachLeast(t.deps, {}, Succ(t.deps, id), news + sel);
  }

  ghost predicate Exact(t: Template, st: Packed)
    requires t.cands <= t.items.Keys
  {
    && st.ids <= t.cands
    && ParentsIncluded(t, st.ids)
    && st.cost == Sum(Costs(t.items), st.ids) && st.spends == Sum(Spends(t.items), st.ids)
    && st.fees == SatAdd(0, Sum(Fees(t.items), st.ids))
    && st.spent == SpentBy(Removals(t.items), st.ids)
  }

  /** The parts of a batch overlap neither with each other nor with what is selected. */
  ghost predicate Parted(sel: set<Id>, id: Id, ancs: set<Id>, succs: set<Id>) {
    id !in sel && id !in ancs && id !in succs && ancs !! sel && succs !! sel && ancs !! succs
  }

  lemma ExactSum(m: map<Id, nat>, sel: set<Id>, id: Id, ancs: set<Id>, succs: set<Id>)
    requires sel <= m.Keys && id in m && ancs <= m.Keys && succs <= m.Keys && Parted(sel, id, ancs, succs)
    ensures sel + ({id} + ancs + succs) <= m.Keys
    ensures Sum(m, sel + ({id} + ancs + succs)) == Sum(m, sel) + Added(m, id, ancs, succs)
    ensures Sum(m, sel + ({id} + ancs + succs)) <= Total(m)
  {
    SumUnion(m, sel, {id} + ancs + succs);
    SumUnion(m, {id} + ancs, succs);
    SumUnion(m, {id}, ancs);
    SumPull(m, {id}, id);
    SumMono(m, sel + ({id} + ancs + succs), m.Keys);
  }

  /** Accepting or refusing in terms of everything that is pulled along. */
  ghost predicate FitsWhole(t: Template, ids: set<Id>, spent: set<CoinId>, id: Id)
    requires t.cands <= t.items.Keys && ids <= t.cands && id in t.cands
  {
    && Complete(t, id)
    && Sum(Costs(t.items), ids + Pulled(t, id)) <= t.maxCost
    && Sum(Spends(t.items), ids + Pulled(t, id)) <= t.maxSpends
    && SpentBy(Removals(t.items), Pulled(t, id) - ids) !! spent
  }

  lemma NotBehindItself(t: Template, id: Id)
    requires Usable(t) && id in t.items
    ensures id !in Behind(t, id)
  {
    var l := t.items[id].launcher;
    if l.Some? && l.value in t.chains { AfterFacts(t.chains[l.value], id); }
  }

  lemma AncestorsAllIn(t: Template, sel: set<Id>, id: Id)
    requires ParentsIncluded(t, sel) && sel <= t.cands && id in t.cands
    ensures NewAncestors(t, sel, id) <= t.cands <==> Complete(t, id)
  {
    NewAncestorsAre(t, sel, id);
  }

  lemma PartsOf(t: Template, sel: set<Id>, id: Id)
    requires Usable(t) && Untangled(t) && Complete(t, id) && sel <= t.cands && ParentsIncluded(t, sel) && id !in sel
    ensures var ancs, succs := NewAncestors(t, sel, id), NewSuccessors(t, sel, id);
      && Parted(sel, id, ancs, succs) && ancs <= t.cands && succs <= t.cands
      && sel + Pulled(t, id) == sel + ({id} + ancs + succs) && Batch(t, sel, id) == Pulled(t, id) - sel
  {
    NewAncestorsAre(t, sel, id);
    NotOwnAncestor(t, sel, id);
    NotBehindItself(t, id);
  }

  lemma WholeTotal(m: map<Id, nat>, sel: set<Id>, id: Id, ancs: set<Id>, succs: set<Id>, tracked: nat)
    requires sel <= m.Keys && id in m && ancs <= m.Keys && succs <= m.Keys && Parted(sel, id, ancs, succs)
    requires Total(m) <= U64_MAX && tracked == Sum(m, sel)
    ensures sel + ({id} + ancs + succs) <= m.Keys
    ensures SatAdd(tracked, Added(m, id, ancs, succs)) == Sum(m, sel + ({id} + ancs + succs))
    ensures SatAdd(tracked, Wrap(Added(m, id, ancs, succs))) == Sum(m, sel + ({id} + ancs + succs))
  {
    ExactSum(m, sel, id, ancs, succs);
  }

  /** What the pass adds up is the true total of the enlarged selection. */
  lemma WholeTotals(t: Template, st: Packed, id: Id)
    requires Usable(t) && Untangled(t) && Exact(t, st) && Complete(t, id) && id !in st.ids
    ensures var ancs, succs := NewAncestors(t, st.ids, id), NewSuccessors(t, st.ids, id);
      && ancs <= t.cands && succs <= t.cands && st.ids + Pulled(t, id) <= t.items.Keys
      && SatAdd(st.cost, Added(Costs(t.items), id, ancs, succs)) == Sum(Costs(t.items), st.ids + Pulled(t, id))
      && SatAdd(st.spends, Wrap(Added(Spends(t.items), id, ancs, succs))) == Sum(Spends(t.items), st.ids + Pulled(t, id))
      && SatAdd(st.spends, Added(Spends(t.items), id, ancs, succs)) == Sum(Spends(t.items), st.ids + Pulled(t, id))
  {
    var ancs, succs := NewAncestors(t, st.ids, id), NewSuccessors(t, st.ids, id);
    PartsOf(t, st.ids, id);
    WholeTotal(Costs(t.items), st.ids, id, ancs, succs, st.cost);
    WholeTotal(Spends(t.items), st.ids, id, ancs, succs, st.spends);
  }

  lemma WholeFees(t: Template, st: Packed, id: Id)
    requires Usable(t) && Untangled(t) && Exact(t, st) && Complete(t, id) && id !in st.ids
    ensures var ancs, succs := NewAncestors(t, st.ids, id), NewSuccessors(t, st.ids, id);
      && ancs <= t.cands && succs <= t.cands && st.ids + Pulled(t, id) <= t.items.Keys
      && SatAdd(st.fees, Added(Fees(t.items), id, ancs, succs)) == SatAdd(0, Sum(Fees(t.items), st.ids + Pulled(t, id)))
  {
    PartsOf(t, st.ids, id);
    ExactSum(Fees(t.items), st.ids, id, NewAncestors(t, st.ids, id), NewSuccessors(t, st.ids, id));
  }

  lemma TakenIff(t: Template, st: Packed, id: Id)
    requires Usable(t) && Untangled(t) && Exact(t, st) && id in t.cands && id !in st.ids
    ensures Taken(t, st, id) <==> FitsWhole(t, st.ids, st.spent, id)
  {
    AncestorsAllIn(t, st.ids, id);
    if Complete(t, id) {
      PartsOf(t, st.ids, id);
      WholeTotals(t, st, id);
    }
  }

  lemma StepExact(t: Template, st: Packed, id: Id)
    requires Usable(t) && Untangled(t) && Exact(t, st) && id in t.cands && Taken(t, st, id)
    ensures Exact(t, PackStep(t, st, id)) && PackStep(t, st, id).ids == st.ids + Pulled(t, id)
  {
    TakenComplete(t, st, id);
    StepClosed(t, st, id);
    PartsOf(t, st.ids, id);
    WholeTotals(t, st, id);
    WholeFees(t, st, id);
    SpentUnion(Removals(t.items), st.ids, Batch(t, st.ids, id));
  }

  /** Refused for good: a missing ancestor, a budget, or a coin that is already spent. */
  ghost predicate Blocked(t: Template, st: Packed, id: Id)
    requires t.cands <= t.items.Keys && st.ids <= t.cands && id in t.cands
  {
    !FitsWhole(t, st.ids, st.spent, id)
  }

  /** Selecting more never unblocks anybody: a coin clash outlives the clashing ancestor's turn. */
  lemma BlockedStays(t: Template, st: Packed, x: Id, id: Id)
    requires Usable(t) && Untangled(t) && Exact(t, st) && id in t.cands && x in t.cands
    requires Blocked(t, st, x) && Taken(t, st, id)
    ensures PackStep(t, st, id).ids <= t.cands && Blocked(t, PackStep(t, st, id), x)
  {
    var r := PackStep(t, st, id);
    StepExact(t, st, id);
    TakenIff(t, st, id);
    BlockedAfter(t, st, r, x, Pulled(t, id));
  }

  lemma BlockedAfter(t: Template, st: Packed, r: Packed, x: Id, taken: set<Id>)
    requires t.cands <= t.items.Keys && st.ids <= t.cands && r.ids <= t.cands && x in t.cands && Blocked(t, st, x)
    requires r.ids == st.ids + taken && st.spent <= r.spent && SpentBy(Removals(t.items), taken - st.ids) !! st.spent
    ensures Blocked(t, r, x)
  {
    if Complete(t, x) {
      SumMono(Costs(t.items), st.ids + Pulled(t, x), r.ids + Pulled(t, x));
      SumMono(Spends(t.items), st.ids + Pulled(t, x), r.ids + Pulled(t, x));
      if !(SpentBy(Removals(t.items), Pulled(t, x) - st.ids) !! st.spent) {
        ClashStays(Removals(t.items), st, r, Pulled(t, x), taken);
      }
    }
  }

  lemma ClashStays(own: map<Id, set<CoinId>>, st: Packed, r: Packed, skipped: set<Id>, taken: set<Id>)
    requires r.ids == st.ids + taken && st.spent <= r.spent
    requires SpentBy(own, taken - st.ids) !! st.spent && !(SpentBy(own, skipped - st.ids) !! st.spent)
    ensures !(SpentBy(own, skipped - r.ids) !! r.spent)
  {
    var b, c :| b in skipped - st.ids && b in own && c in own[b] && c in st.spent;
    assert b !in taken by {
      assert b in taken ==> c in SpentBy(own, taken - st.ids);
    }
    assert c in SpentBy(own, skipped - r.ids) && c in r.spent;
  }

  /** The pass has dealt with the first `n` candidates once and for all. */
  ghost predicate Settled(t: Template, xs: seq<Id>, n: nat, st: Packed)
    requires Elems(xs) <= t.cands <= t.items.Keys && n <= |xs|
  {
    && Exact(t, st)
    && forall j :: 0 <= j < n ==> xs[j] in t.cands && (xs[j] in st.ids || Blocked(t, st, xs[j]))
  }

  lemma SettledStays(t: Template, xs: seq<Id>, n: nat, st: Packed)
    requires Usable(t) && Untangled(t) && Elems(xs) <= t.cands && n < |xs| && Settled(t, xs, n, st)
    requires xs[n] in t.cands && Taken(t, st, xs[n]) && PackStep(t, st, xs[n]).ids <= t.cands
    ensures forall j :: 0 <= j < n ==>
      xs[j] in t.cands && (xs[j] in PackStep(t, st, xs[n]).ids || Blocked(t, PackStep(t, st, xs[n]), xs[j]))
  {
    forall j | 0 <= j < n && xs[j] !in PackStep(t, st, xs[n]).ids
      ensures Blocked(t, PackStep(t, st, xs[n]), xs[j])
    {
      BlockedStays(t, st, xs[j], xs[n]);
    }
  }

  lemma SettledStep(t: Template, xs: seq<Id>, n: nat, st: Packed)
    requires Usable(t) && Untangled(t) && Elems(xs) <= t.cands && n < |xs| && Settled(t, xs, n, st)
    ensures xs[n] in t.cands && Settled(t, xs, n + 1, PackStep(t, st, xs[n]))
  {
    assert xs[n] in Elems(xs);
    if Taken(t, st, xs[n]) {
      StepExact(t, st, xs[n]);
      SettledStays(t, xs, n, st);
    } else if xs[n] !in st.ids {
      TakenIff(t, st, xs[n]);
    }
  }

  lemma {:induction false} PackSettled(t: Template, xs: seq<Id>, n: nat)
    requires Usable(t) && Untangled(t) && Elems(xs) <= t.cands && n <= |xs|
    ensures Settled(t, xs, n, Pack(t, xs, n))
  {
    if n > 0 {
      var k: nat :| k + 1 == n;
      PackSettled(t, xs, k);
      SettledStep(t, xs, k, Pack(t, xs, k));
    }
  }

  /** Adding `x` and whatever it pulls along breaks a budget or reuses a coin. */
  ghost predicate CannotJoin(t: Template, ids: set<Id>, x: Id)
    requires ids <= t.cands <= t.items.Keys && x in t.cands && Complete(t, x)
  {
    || Sum(Costs(t.items), ids + Pulled(t, x)) > t.maxCost
    || Sum(Spends(t.items), ids + Pulled(t, x)) > t.maxSpends
    || exists b, c :: b in Pulled(t, x) - ids && b in t.items && c in t.items[b].removals && c in SpentBy(Removals(t.items), ids)
  }

  lemma BlockedMeans(t: Template, st: Packed, x: Id)
    requires t.cands <= t.items.Keys && Exact(t, st) && x in t.cands && Complete(t, x) && Blocked(t, st, x)
    ensures CannotJoin(t, st.ids, x)
  {
    var own := Removals(t.items);
    if !(SpentBy(own, Pulled(t, x) - st.ids) !! st.spent) {
      var b, c :| b in Pulled(t, x) - st.ids && b in own && c in own[b] && c in st.spent;
      assert c in t.items[b].removals;
    }
  }

  /**
   * Greedy maximality: once the pass is over, adding any unselected candidate whose ancestors are all
   * candidates, together with whatever it pulls along, breaks a budget or reuses a coin.
   */
  lemma Maximal(t: Template, xs: seq<Id>, x: Id)
    requires Usable(t) && Untangled(t) && Elems(xs) == t.cands
    requires x in t.cands && x !in Pack(t, xs, |xs|).ids && Complete(t, x)
    ensures Pack(t, xs, |xs|).ids <= t.cands && CannotJoin(t, Pack(t, xs, |xs|).ids, x)
  {
    PackSettled(t, xs, |xs|);
    assert x in Elems(xs);
    var j :| 0 <= j < |xs| && xs[j] == x;
    BlockedMeans(t, Pack(t, xs, |xs|), x);
  }

  ghost predicate IndexedDisjoint(items: map<Id, Item>) {
    forall a, b, c :: a in items && b in items && c in items[a].removals && c in items[b].removals ==> a == b
  }
}
