/** Snapshot and restore: every index is rebuilt from the items alone (src/mempool/persistence.rs). */
module Persistence {
  import opened Prelude
  import opened Items
  import opened Sums
  import opened Graph
  import opened Queues
  import opened PoolState
  import opened PoolInvariants
  import opened PendingPools
  import opened ActivePools

  /** `xs` lists every stored item once, in any order. */
  ghost predicate Listing(items: map<Id, Item>, xs: seq<Item>) {
    && NoDup(IdsOf(xs)) && Elems(IdsOf(xs)) == items.Keys
    && forall i :: 0 <= i < |xs| ==> xs[i].id in items && items[xs[i].id] == xs[i]
  }

  /** `insert` of every listed item, in the listed order, into whatever pool there is. */
  function InsertAll(p: Pool, xs: seq<Item>): Pool {
    if xs == [] then p else Insert(InsertAll(p, xs[..|xs| - 1]), xs[|xs| - 1])
  }

  /** A restoration that nothing disturbs. */
  function Rebuild(xs: seq<Item>): Pool { InsertAll(EMPTY, xs) }

  function PendingInsertAll(s: Pending, xs: seq<Item>): Pending {
    if xs == [] then s else PendingInsert(PendingInsertAll(s, xs[..|xs| - 1]), xs[|xs| - 1])
  }

  function PendingRebuild(xs: seq<Item>): Pending { PendingInsertAll(NOTHING, xs) }

  // ── The operations ──

  method ListItems(items: map<Id, Item>) returns (xs: seq<Item>)
    requires Keyed(items)
    ensures Listing(items, xs)
  {
    var ids := Enumerate(items.Keys);
    xs := [];
    for i := 0 to |ids|
      invariant |xs| == i && forall j :: 0 <= j < i ==> ids[j] in items && xs[j] == items[ids[j]] && xs[j].id == ids[j]
    {
      assert ids[i] in Elems(ids);
      xs := xs + [items[ids[i]]];
    }
    assert IdsOf(xs) == ids;
  }

  method Snapshot(pool: ActivePool, pending: PendingPool) returns (active: seq<Item>, timelocked: seq<Item>)
    requires Keyed(pool.items) && Keyed(pending.pending)
    ensures Listing(pool.items, active) && Listing(pending.pending, timelocked)
  {
    active := ListItems(pool.items);
    timelocked := ListItems(pending.pending);
  }

  /** The second locked section of a restoration that concerns the active pool. */
  method Reinsert(pool: ActivePool, active: seq<Item>)
    modifies pool
    ensures pool.Model() == InsertAll(old(pool.Model()), active)
  {
    assert active[..0] == [];
    for i := 0 to |active|
      invariant pool.Model() == InsertAll(old(pool.Model()), active[..i])
    {
      assert active[..i + 1][..i] == active[..i];
      pool.Insert(active[i]);
    }
    assert active[..|active|] == active;
  }

  /** And the one that concerns the pending pool. */
  method PendingReinsert(pending: PendingPool, timelocked: seq<Item>)
    modifies pending
    ensures pending.Model() == PendingInsertAll(old(pending.Model()), timelocked)
  {
    assert timelocked[..0] == [];
    for i := 0 to |timelocked|
      invariant pending.Model() == PendingInsertAll(old(pending.Model()), timelocked[..i])
    {
      assert timelocked[..i + 1][..i] == timelocked[..i];
      pending.Insert(timelocked[i]);
    }
    assert timelocked[..|timelocked|] == timelocked;
  }

  /** All locked sections of `restore` one after the other; in between they let other threads in. */
  method Restore(pool: ActivePool, pending: PendingPool, active: seq<Item>, timelocked: seq<Item>)
    modifies pool, pending
    ensures pool.Model() == Rebuild(active)
    ensures pending.Model() == PendingRebuild(timelocked)
  {
    pool.Clear();
    pending.Clear();
    Reinsert(pool, active);
    PendingReinsert(pending, timelocked);
  }

  // ── What one more insertion does to a partly rebuilt pool ──

  ghost predicate PartOf(some: map<Id, Item>, all: map<Id, Item>) {
    some.Keys <= all.Keys && forall b :: b in some ==> some[b] == all[b]
  }

  lemma {:induction false} PartSum(m: map<Id, nat>, all: map<Id, nat>, id: Id)
    requires m.Keys <= all.Keys && (forall b :: b in m ==> m[b] == all[b]) && id in all && id !in m
    ensures Total(m) + all[id] <= Total(all)
  {
    SumAgree(m, all, m.Keys);
    SumPush(all, m.Keys, id);
    SumMono(all, m.Keys + {id}, all.Keys);
  }

  /** What a pool with all these items would be like: totals in range, no cycle, no key twice in an item. */
  ghost predicate Joinable(all: map<Id, Item>) {
    && Total(Costs(all)) <= U64_MAX && Total(Spends(all)) <= U64_MAX
    && Acyclic(Parents(all)) && forall b :: b in all ==> NoDup(all[b].dedupKeys)
  }

  /** No coin is claimed twice, and created coins name a coin their item spends. */
  ghost predicate Unclaimed(all: map<Id, Item>) {
    && (forall a, b, c :: a in all && b in all && c in all[a].removals && c in all[b].removals ==> a == b)
    && forall b :: b in all ==> Rooted(all[b])
  }

  lemma PartFits(all: map<Id, Item>, r: Pool, item: Item)
    requires Joinable(all) && Counted(r) && PartOf(r.items, all)
    requires item.id in all && all[item.id] == item && item.id !in r.items
    ensures CanInsert(r, item)
  {
    PartSum(Costs(r.items), Costs(all), item.id);
    PartSum(Spends(r.items), Spends(all), item.id);
  }

  lemma PartAcyclic(all: map<Id, Item>, r: Pool, item: Item)
    requires Acyclic(Parents(all)) && Edged(r) && PartOf(r.items, all) && item.id in all && all[item.id] == item
    ensures NoCycleThrough(r, item)
  {
    var g := Parents(all);
    forall x ensures Succ(r.dependencies, x) <= Succ(g, x) { SuccDependencies(r, x); }
    assert Succ(g, item.id) == item.dependsOn;
    ReachCovers(g, {}, item.dependsOn);
    ReachMono(r.dependencies, g, {}, item.dependsOn, item.dependsOn);
    ReachIrreflexive(g, item.id);
  }

  /** An index of part of the owners names no coin of anybody outside that part. */
  lemma PartIndexFree(index: map<CoinId, Id>, some: map<Id, set<CoinId>>, own: map<Id, set<CoinId>>, id: Id)
    requires IndexTrue(index, some) && id in own && id !in some
    requires some.Keys <= own.Keys && forall b :: b in some ==> some[b] == own[b]
    requires forall b :: b in own && b != id ==> own[b] !! own[id]
    ensures own[id] !! index.Keys
  {
    forall c | c in index ensures c !in own[id] {
      assert c in own[index[c]];
    }
  }

  lemma PartRemovals(a: map<Id, Item>, b: map<Id, Item>)
    requires PartOf(a, b)
    ensures Removals(a).Keys <= Removals(b).Keys && forall x :: x in Removals(a) ==> Removals(a)[x] == Removals(b)[x]
  {
  }

  lemma PartDisjoint(all: map<Id, Item>, r: Pool, item: Item)
    requires Unclaimed(all) && CoinsTrue(r) && PartOf(r.items, all)
    requires item.id in all && all[item.id] == item && item.id !in r.items
    ensures Elems(item.removals) !! r.coinIndex.Keys && Rooted(item)
  {
    PartRemovals(r.items, all);
    assert Removals(all)[item.id] == Elems(item.removals);
    PartIndexFree(r.coinIndex, Removals(r.items), Removals(all), item.id);
  }

  lemma InsertEdgesFull(p: Pool, item: Item)
    requires EdgesFull(p) && item.id !in p.items
    ensures EdgesFull(Insert(p, item))
  {
    var r := Insert(p, item);
    forall c, q | c in r.items && q in r.items[c].dependsOn ensures c in Succ(r.dependents, q) {
      if c != item.id { assert c in Succ(p.dependents, q); }
    }
  }

  lemma RebuildStep(all: map<Id, Item>, r: Pool, item: Item)
    requires Joinable(all) && PartOf(r.items, all) && Sound(r)
    requires item.id in all && all[item.id] == item && item.id !in r.items
    ensures Sound(Insert(r, item))
  {
    PartFits(all, r, item);
    PartAcyclic(all, r, item);
    InsertSound(r, item);
  }

  lemma PartGrows(all: map<Id, Item>, r: Pool, item: Item)
    requires PartOf(r.items, all) && item.id in all && all[item.id] == item
    ensures PartOf(Insert(r, item).items, all)
  {
  }

  lemma RebuildStepCoins(all: map<Id, Item>, r: Pool, item: Item)
    requires Unclaimed(all) && PartOf(r.items, all) && CoinsTrue(r) && CoinsFull(r)
    requires item.id in all && all[item.id] == item && item.id !in r.items
    ensures CoinsFull(Insert(r, item))
  {
    PartDisjoint(all, r, item);
    InsertCoinsFull(r, item);
  }

  /** What holds of the pool `r` that some of `all` have been inserted into, `p` at first. */
  ghost predicate Rebuilt(p: Pool, all: map<Id, Item>, r: Pool) {
    && PartOf(r.items, all) && Sound(r)
    && (EdgesFull(p) ==> EdgesFull(r))
    && (CoinsFull(p) && Unclaimed(all) ==> CoinsFull(r))
  }

  lemma RebuiltGrows(p: Pool, all: map<Id, Item>, r: Pool, item: Item)
    requires Joinable(all) && Rebuilt(p, all, r)
    requires item.id in all && all[item.id] == item && item.id !in r.items
    ensures Rebuilt(p, all, Insert(r, item))
  {
    RebuildStep(all, r, item);
    PartGrows(all, r, item);
    if EdgesFull(p) { InsertEdgesFull(r, item); }
    if CoinsFull(p) && Unclaimed(all) { RebuildStepCoins(all, r, item); }
  }

  lemma InsertAllOne(p: Pool, xs: seq<Item>, n: nat)
    requires 0 < n <= |xs|
    ensures InsertAll(p, xs[..n]) == Insert(InsertAll(p, xs[..n - 1]), xs[n - 1])
  {
    assert xs[..n][..n - 1] == xs[..n - 1];
  }

  /** The listed items belong to `all`, each once, and none of them is in the pool yet. */
  ghost predicate Fresh(all: map<Id, Item>, p: Pool, xs: seq<Item>) {
    && NoDup(IdsOf(xs)) && Elems(IdsOf(xs)) !! p.items.Keys
    && forall i :: 0 <= i < |xs| ==> xs[i].id in all && all[xs[i].id] == xs[i]
  }

  lemma {:induction false} InsertAllPrefix(all: map<Id, Item>, p: Pool, xs: seq<Item>, n: nat) returns (r: Pool)
    requires Joinable(all) && Sound(p) && PartOf(p.items, all) && Fresh(all, p, xs) && n <= |xs|
    ensures r == InsertAll(p, xs[..n]) && Rebuilt(p, all, r)
  {
    if n == 0 {
      return p;
    }
    var before := InsertAllPrefix(all, p, xs, n - 1);
    r := PrefixGrows(all, p, xs, n - 1, before);
  }

  lemma PrefixGrows(all: map<Id, Item>, p: Pool, xs: seq<Item>, n: nat, before: Pool) returns (r: Pool)
    requires Joinable(all) && Fresh(all, p, xs) && n < |xs| && before == InsertAll(p, xs[..n]) && Rebuilt(p, all, before)
    ensures r == InsertAll(p, xs[..n + 1]) && Rebuilt(p, all, r)
  {
    NextIsNew(p, xs, n);
    RebuiltGrows(p, all, before, xs[n]);
    InsertAllOne(p, xs, n + 1);
    r := Insert(before, xs[n]);
  }

  lemma {:induction false} InsertAllKeys(p: Pool, xs: seq<Item>)
    ensures InsertAll(p, xs).items.Keys == p.items.Keys + Elems(IdsOf(xs))
    ensures InsertAll(p, xs).order == p.order + IdsOf(xs)
  {
    if xs == [] {
      ElemsEmpty(IdsOf(xs));
      assert p.order + [] == p.order;
    } else {
      var ys, x := xs[..|xs| - 1], xs[|xs| - 1];
      InsertAllKeys(p, ys);
      IdsSnoc(xs);
      assert p.order + (IdsOf(ys) + [x.id]) == (p.order + IdsOf(ys)) + [x.id];
    }
  }

  lemma IdsSnoc(xs: seq<Item>)
    requires xs != []
    ensures IdsOf(xs) == IdsOf(xs[..|xs| - 1]) + [xs[|xs| - 1].id]
    ensures Elems(IdsOf(xs)) == Elems(IdsOf(xs[..|xs| - 1])) + {xs[|xs| - 1].id}
  {
    assert IdsOf(xs) == IdsOf(xs[..|xs| - 1]) + [xs[|xs| - 1].id];
    ElemsAppend(IdsOf(xs[..|xs| - 1]), xs[|xs| - 1].id);
  }

  lemma NextIsNew(p: Pool, xs: seq<Item>, n: nat)
    requires NoDup(IdsOf(xs)) && Elems(IdsOf(xs)) !! p.items.Keys && n < |xs|
    ensures xs[n].id !in InsertAll(p, xs[..n]).items
  {
    InsertAllKeys(p, xs[..n]);
    assert IdsOf(xs[..n]) == IdsOf(xs)[..n] && IdsOf(xs)[n] == xs[n].id;
    assert xs[n].id in Elems(IdsOf(xs));
  }

  /** The items of the pool afterwards. */
  lemma InsertAllItems(all: map<Id, Item>, p: Pool, xs: seq<Item>)
    requires Joinable(all) && Sound(p) && PartOf(p.items, all) && Fresh(all, p, xs)
    requires all.Keys == p.items.Keys + Elems(IdsOf(xs))
    ensures Rebuilt(p, all, InsertAll(p, xs)) && InsertAll(p, xs).items == all
    ensures InsertAll(p, xs).order == p.order + IdsOf(xs)
  {
    var r := InsertAllPrefix(all, p, xs, |xs|);
    WholePrefix(xs);
    InsertAllKeys(p, xs);
    PartWhole(r.items, all);
  }

  lemma PartWhole(some: map<Id, Item>, all: map<Id, Item>)
    requires PartOf(some, all) && some.Keys == all.Keys
    ensures some == all
  {
  }

  lemma FeesStep(r: Pool, item: Item)
    requires r.totalFees == Min(Total(Fees(r.items)), U64_MAX) && item.id !in r.items
    ensures Insert(r, item).totalFees == Min(Total(Fees(Insert(r, item).items)), U64_MAX)
  {
    InsertSums(r, item);
    TotalInsert(Fees(r.items), item.id, item.fee);
  }

  lemma RebuildFeesGrow(xs: seq<Item>, n: nat, before: Pool) returns (r: Pool)
    requires NoDup(IdsOf(xs)) && n < |xs| && before == Rebuild(xs[..n])
    requires before.totalFees == Min(Total(Fees(before.items)), U64_MAX)
    ensures r == Rebuild(xs[..n + 1]) && r.totalFees == Min(Total(Fees(r.items)), U64_MAX)
  {
    NextIsNew(EMPTY, xs, n);
    InsertAllOne(EMPTY, xs, n + 1);
    FeesStep(before, xs[n]);
    r := Insert(before, xs[n]);
  }

  lemma {:induction false} RebuildFees(xs: seq<Item>, n: nat) returns (r: Pool)
    requires NoDup(IdsOf(xs)) && n <= |xs|
    ensures r == Rebuild(xs[..n]) && r.totalFees == Min(Total(Fees(r.items)), U64_MAX)
  {
    if n == 0 {
      r := EMPTY;
      EmptySound();
    } else {
      var k: nat :| k + 1 == n;
      var before := RebuildFees(xs, k);
      r := RebuildFeesGrow(xs, k, before);
    }
  }

  lemma EmptySound()
    ensures Sound(EMPTY) && CoinsFull(EMPTY) && EdgesFull(EMPTY) && NoOrphans(EMPTY.items)
    ensures Total(Costs(EMPTY.items)) == Total(Fees(EMPTY.items)) == Total(Spends(EMPTY.items)) == 0
  {
    assert Ranked(EMPTY.dependencies, (x: Id) => 0, 0);
    ElemsEmpty<Id>([]);
  }

  // ── Indexes are determined by the items ──

  lemma OneIndex(a: map<CoinId, Id>, b: map<CoinId, Id>, own: map<Id, set<CoinId>>)
    requires IndexTrue(a, own) && IndexFull(a, own) && IndexTrue(b, own) && IndexFull(b, own)
    ensures a == b
  {
    forall c | c in a ensures c in b && b[c] == a[c] { assert c in own[a[c]]; }
    forall c | c in b ensures c in a { assert c in own[b[c]]; }
  }

  lemma ChildrenAre(p: Pool, q: Id)
    requires Edged(p) && EdgesFull(p)
    ensures Succ(p.dependents, q) == set c | c in p.items && q in p.items[c].dependsOn
    ensures q in p.dependents <==> Succ(p.dependents, q) != {}
  {
    ChildrenActive(p, q);
  }

  lemma OneGraph(p: Pool, r: Pool)
    requires Edged(p) && Edged(r) && EdgesFull(r) && p.items == r.items
    ensures p.dependencies == r.dependencies
    ensures p.dependents == r.dependents <==> EdgesFull(p)
  {
    if EdgesFull(p) {
      forall q ensures Succ(p.dependents, q) == Succ(r.dependents, q) && (q in p.dependents <==> q in r.dependents) {
        ChildrenAre(p, q);
        ChildrenAre(r, q);
      }
      assert forall q :: q in p.dependents ==> p.dependents[q] == Succ(p.dependents, q) == r.dependents[q];
    } else {
      var c, q :| c in p.items && q in p.items[c].dependsOn && c !in Succ(p.dependents, q);
      assert c in Succ(r.dependents, q);
    }
  }

  lemma OneDedup(d: Dedup, e: Dedup)
    requires DedupTidy(d) && DedupTidy(e) && forall k :: Queue(d, k) == Queue(e, k)
    ensures d == e
  {
    forall k ensures (k in d.index <==> k in e.index) && (k in d.index ==> d.index[k] == e.index[k] && Waiting(d, k) == Waiting(e, k)) {
      assert Queue(d, k) == Queue(e, k);
      if k in d.index {
        assert Waiting(d, k) == Queue(d, k)[1..] && Queue(e, k) != [];
        assert Waiting(e, k) == Queue(e, k)[1..];
      }
    }
    assert d.index == e.index;
    forall k ensures (k in d.waiters <==> k in e.waiters) && (k in d.waiters ==> d.waiters[k] == e.waiters[k]) {}
  }

  lemma OneChains(a: map<Id, seq<Id>>, b: map<Id, seq<Id>>)
    requires (forall l :: l in a ==> a[l] != []) && (forall l :: l in b ==> b[l] != [])
    requires forall l :: Chain(a, l) == Chain(b, l)
    ensures a == b
  {
    forall l ensures (l in a <==> l in b) && (l in a ==> a[l] == b[l]) { assert Chain(a, l) == Chain(b, l); }
  }

  // ── The round trip ──

  lemma SoundJoinable(p: Pool)
    requires Sound(p)
    ensures Joinable(p.items) && (CoinsFull(p) ==> Unclaimed(p.items))
  {
    forall x ensures Succ(Parents(p.items), x) <= Succ(p.dependencies, x) { SuccDependencies(p, x); }
    AcyclicSubgraph(p.dependencies, Parents(p.items));
    forall b | b in p.items ensures NoDup(p.items[b].dedupKeys) { assert NoDup(KeysOf(p.items)[b]); }
    if CoinsFull(p) { FullUnclaimed(p); }
  }

  lemma FullUnclaimed(p: Pool)
    requires CoinsFull(p)
    ensures Unclaimed(p.items)
  {
    forall a, b, c | a in p.items && b in p.items && c in p.items[a].removals && c in p.items[b].removals ensures a == b {
      assert c in Removals(p.items)[a] && c in Removals(p.items)[b];
      assert p.coinIndex[c] == a && p.coinIndex[c] == b;
    }
    forall b, c | b in p.items && c in p.items[b].additions ensures c.Created? && c.parent in p.items[b].removals {
      assert c in Additions(p.items)[b] && Removals(p.items)[b] == Elems(p.items[b].removals);
    }
  }

  lemma RestoredItems(p: Pool, xs: seq<Item>)
    requires Sound(p) && Listing(p.items, xs)
    ensures var r := Rebuild(xs);
      && r.items == p.items && Sound(r) && EdgesFull(r) && (CoinsFull(p) ==> CoinsFull(r))
      && r.order == IdsOf(xs)
  {
    SoundJoinable(p);
    EmptySound();
    AllFresh(p.items, xs);
    InsertAllItems(p.items, EMPTY, xs);
  }

  lemma AllFresh(items: map<Id, Item>, xs: seq<Item>)
    requires Listing(items, xs)
    ensures Fresh(items, EMPTY, xs) && PartOf(EMPTY.items, items) && EMPTY.order + IdsOf(xs) == IdsOf(xs)
    ensures items.Keys == EMPTY.items.Keys + Elems(IdsOf(xs))
  {
  }

  /**
   * Whatever order the snapshot lists the items in, restoring gives back the same items,
   * dependencies and accumulators; the coin indexes when they were complete; and the child edges
   * exactly when none was missing, which is what plain removals of parents take away.
   */
  lemma RoundTrip(p: Pool, xs: seq<Item>)
    requires Sound(p) && Listing(p.items, xs)
    ensures var r := Rebuild(xs);
      && Sound(r) && r.items == p.items && r.dependencies == p.dependencies
      && r.totalCost == p.totalCost && r.totalSpends == p.totalSpends
      && (r.totalFees == p.totalFees <==> p.totalFees == Min(Total(Fees(p.items)), U64_MAX))
      && (CoinsFull(p) ==> CoinsFull(r) && r.coinIndex == p.coinIndex && r.mempoolCoins == p.mempoolCoins)
      && (r.dependents == p.dependents <==> EdgesFull(p))
  {
    var r := Rebuild(xs);
    RestoredItems(p, xs);
    var _ := RebuildFees(xs, |xs|);
    WholePrefix(xs);
    OneGraph(p, r);
    if CoinsFull(p) {
      OneIndex(r.coinIndex, p.coinIndex, Removals(p.items));
      OneIndex(r.mempoolCoins, p.mempoolCoins, Additions(p.items));
    }
  }

  /** Dedup queues and singleton chains come back in the order of the listing. */
  lemma QueuesFollowListing(p: Pool, xs: seq<Item>, k: DedupKey, l: Id)
    requires Sound(p) && Listing(p.items, xs)
    ensures Queue(Rebuild(xs).dedup, k) == Restrict(IdsOf(xs), Holders(KeysOf(p.items), k))
    ensures Chain(Rebuild(xs).singletonSpends, l) == Restrict(IdsOf(xs), OfLauncher(Launchers(p.items), l))
  {
    RestoredItems(p, xs);
  }

  /** A listing in admission order restores the queues and chains exactly. */
  lemma AdmissionOrderRestoresQueues(p: Pool, xs: seq<Item>)
    requires Sound(p) && Listing(p.items, xs) && IdsOf(xs) == p.order
    ensures Rebuild(xs).dedup == p.dedup && Rebuild(xs).singletonSpends == p.singletonSpends
  {
    var r := Rebuild(xs);
    RestoredItems(p, xs);
    OneDedup(r.dedup, p.dedup);
    OneChains(r.singletonSpends, p.singletonSpends);
  }

  // ── The pending pool ──

  ghost predicate PendingPart(s: Pending, r: Pending) { PartOf(r.items, s.items) && PendingSound(r) }

  lemma PendingStepPart(s: Pending, r: Pending, item: Item)
    requires PendingSound(s) && PendingPart(s, r)
    requires item.id in s.items && s.items[item.id] == item && item.id !in r.items
    ensures PendingPart(s, PendingInsert(r, item))
  {
    PartSum(Costs(r.items), Costs(s.items), item.id);
    PartRemovals(r.items, s.items);
    forall b | b in Removals(s.items) && b != item.id ensures Removals(s.items)[b] !! Removals(s.items)[item.id] {
      forall c | c in Removals(s.items)[b] ensures c !in Removals(s.items)[item.id] { assert s.index[c] == b; }
    }
    PartIndexFree(r.index, Removals(r.items), Removals(s.items), item.id);
    InsertKeeps(r, item);
  }

  lemma {:induction false} PendingKeys(s: Pending, xs: seq<Item>)
    ensures PendingInsertAll(s, xs).items.Keys == s.items.Keys + Elems(IdsOf(xs))
  {
    if xs == [] {
      ElemsEmpty(IdsOf(xs));
    } else {
      PendingKeys(s, xs[..|xs| - 1]);
      IdsSnoc(xs);
    }
  }

  lemma PendingOne(xs: seq<Item>, n: nat)
    requires 0 < n <= |xs|
    ensures PendingRebuild(xs[..n]) == PendingInsert(PendingRebuild(xs[..n - 1]), xs[n - 1])
    ensures NoDup(IdsOf(xs)) ==> xs[n - 1].id !in PendingRebuild(xs[..n - 1]).items
  {
    assert xs[..n][..n - 1] == xs[..n - 1];
    PendingKeys(NOTHING, xs[..n - 1]);
    assert IdsOf(xs[..n - 1]) == IdsOf(xs)[..n - 1] && IdsOf(xs)[n - 1] == xs[n - 1].id;
  }

  lemma {:induction false} PendingPrefix(s: Pending, xs: seq<Item>, n: nat) returns (r: Pending)
    requires PendingSound(s) && Listing(s.items, xs) && n <= |xs|
    ensures r == PendingRebuild(xs[..n]) && PendingPart(s, r)
  {
    if n == 0 {
      r := NOTHING;
      assert Total(Costs(NOTHING.items)) == 0;
    } else {
      var before := PendingPrefix(s, xs, n - 1);
      PendingOne(xs, n);
      PendingStepPart(s, before, xs[n - 1]);
      r := PendingInsert(before, xs[n - 1]);
    }
  }

  /** The pending pool comes back exactly, whatever the order. */
  lemma PendingRoundTrip(s: Pending, xs: seq<Item>)
    requires PendingSound(s) && Listing(s.items, xs)
    ensures PendingRebuild(xs) == s
  {
    var r := PendingPrefix(s, xs, |xs|);
    WholePrefix(xs);
    PendingKeys(NOTHING, xs);
    OnePending(s, r);
  }

  lemma OnePending(s: Pending, r: Pending)
    requires PendingSound(s) && PendingPart(s, r) && r.items.Keys == s.items.Keys
    ensures r == s
  {
    assert r.items == s.items;
    OneIndex(r.index, s.index, Removals(s.items));
  }
}
