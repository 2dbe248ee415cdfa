/**
 * A restoration clears the active pool in one locked section and re-inserts the snapshot in another
 * (src/mempool/persistence.rs:117-155). Whatever was committed in between is still there, and `insert`
 * checks nothing: what the re-insertion keeps, and exactly when.
 */
module Reinsertions {
  import opened Prelude
  import opened Items
  import opened Sums
  import opened Graph
  import opened PoolState
  import opened PoolInvariants
  import opened Packages
  import opened Scores
  import opened Admission
  import opened Admitted
  import opened Families
  import opened Persistence

  // ── The items afterwards ──

  /** The listed items by id. */
  function Stored(xs: seq<Item>): map<Id, Item> {
    if xs == [] then map[] else Stored(xs[..|xs| - 1])[xs[|xs| - 1].id := xs[|xs| - 1]]
  }

  lemma PlusOne(a: map<Id, Item>, b: map<Id, Item>, x: Item)
    ensures (a + b)[x.id := x] == a + b[x.id := x]
  {
  }

  lemma {:induction false} InsertAllStored(p: Pool, xs: seq<Item>)
    ensures InsertAll(p, xs).items == p.items + Stored(xs)
  {
    if xs != [] {
      InsertAllStored(p, xs[..|xs| - 1]);
      PlusOne(p.items, Stored(xs[..|xs| - 1]), xs[|xs| - 1]);
    }
  }

  lemma {:induction false} StoredPart(items: map<Id, Item>, xs: seq<Item>)
    requires forall x :: x in xs ==> x.id in items && items[x.id] == x
    ensures PartOf(Stored(xs), items) && Stored(xs).Keys == Elems(IdsOf(xs))
  {
    if xs == [] {
      ElemsEmpty(IdsOf(xs));
    } else {
      var ys := xs[..|xs| - 1];
      StoredPart(items, ys);
      IdsSnoc(xs);
    }
  }

  lemma Reinserted(p: Pool, items: map<Id, Item>, xs: seq<Item>)
    requires Listing(items, xs)
    ensures InsertAll(p, xs).items == p.items + items
    ensures InsertAll(p, xs).order == p.order + IdsOf(xs)
  {
    InsertAllStored(p, xs);
    StoredPart(items, xs);
    PartWhole(Stored(xs), items);
    InsertAllKeys(p, xs);
  }

  lemma {:induction false} SumBoth(a: map<Id, nat>, b: map<Id, nat>)
    requires a.Keys !! b.Keys
    ensures Total(a + b) == Total(a) + Total(b)
  {
    SumUnion(a + b, a.Keys, b.Keys);
    assert (a + b).Keys == a.Keys + b.Keys;
    SumAgree(a + b, a, a.Keys);
    SumAgree(a + b, b, b.Keys);
  }

  /** Where both have an id, only the second value counts. */
  lemma OverlaySum(a: map<Id, nat>, b: map<Id, nat>)
    ensures Total(a + b) + Sum(a, a.Keys * b.Keys) == Total(a) + Total(b)
  {
    var rest := a.Keys - b.Keys;
    SumUnion(a + b, rest, b.Keys);
    assert (a + b).Keys == rest + b.Keys;
    SumAgree(a + b, a, rest);
    SumAgree(a + b, b, b.Keys);
    SumUnion(a, rest, a.Keys * b.Keys);
    assert a.Keys == rest + a.Keys * b.Keys;
  }

  lemma {:induction false} SumZeroIff(m: map<Id, nat>, s: set<Id>)
    requires s <= m.Keys
    ensures Sum(m, s) == 0 <==> forall x :: x in s ==> m[x] == 0
    decreases s
  {
    if s != {} {
      var y :| y in s;
      SumPull(m, s, y);
      SumZeroIff(m, s - {y});
    }
  }

  lemma CostsBoth(a: map<Id, Item>, b: map<Id, Item>)
    ensures Costs(a + b) == Costs(a) + Costs(b)
  {
  }

  /** What both have costs nothing in the first. */
  ghost predicate Weightless(a: map<Id, Item>, b: map<Id, Item>) { forall x :: x in a && x in b ==> a[x].virtualCost == 0 }

  lemma SharedCosts(a: map<Id, Item>, b: map<Id, Item>)
    ensures Sum(Costs(a), a.Keys * b.Keys) == 0 <==> Weightless(a, b)
  {
    SumZeroIff(Costs(a), a.Keys * b.Keys);
    assert forall x :: x in a.Keys * b.Keys ==> Costs(a)[x] == a[x].virtualCost;
  }

  lemma SpendsBoth(a: map<Id, Item>, b: map<Id, Item>)
    ensures Spends(a + b) == Spends(a) + Spends(b)
  {
  }

  lemma TotalsBoth(a: map<Id, Item>, b: map<Id, Item>)
    requires a.Keys !! b.Keys
    ensures Total(Costs(a + b)) == Total(Costs(a)) + Total(Costs(b))
    ensures Total(Spends(a + b)) == Total(Spends(a)) + Total(Spends(b))
  {
    CostsBoth(a, b);
    SpendsBoth(a, b);
    SumBoth(Costs(a), Costs(b));
    SumBoth(Spends(a), Spends(b));
  }

  // ── Soundness and limits ──

  /** Known before the act: fresh ids, room for all of them, and no cycle through what is there. */
  ghost predicate Reinsertable(p: Pool, items: map<Id, Item>, cfg: Config) {
    && items.Keys !! p.items.Keys
    && p.totalCost + Total(Costs(items)) <= cfg.maxTotalCost && p.totalSpends + Total(Spends(items)) <= cfg.maxSpends
    && Acyclic(Parents(p.items + items))
  }

  lemma BothJoinable(p: Pool, s: Pool, cfg: Config)
    requires Sound(p) && Sound(s) && Reinsertable(p, s.items, cfg)
    ensures Joinable(p.items + s.items)
  {
    BothFit(p, s, cfg);
    KeysOnce(p);
    KeysOnce(s);
    JoinableWhen(p.items, s.items);
  }

  lemma JoinableWhen(a: map<Id, Item>, b: map<Id, Item>)
    requires Total(Costs(a + b)) <= U64_MAX && Total(Spends(a + b)) <= U64_MAX && Acyclic(Parents(a + b))
    requires KeysApart(a) && KeysApart(b)
    ensures Joinable(a + b)
  {
    assert forall x :: x in a + b ==> NoDup((a + b)[x].dedupKeys);
  }

  /** No item carries a key twice. */
  ghost predicate KeysApart(items: map<Id, Item>) { forall b :: b in items ==> NoDup(items[b].dedupKeys) }

  lemma BothFit(p: Pool, s: Pool, cfg: Config)
    requires Counted(p) && Counted(s) && Reinsertable(p, s.items, cfg)
    ensures Total(Costs(p.items + s.items)) <= cfg.maxTotalCost && Total(Spends(p.items + s.items)) <= cfg.maxSpends
  {
    TotalsBoth(p.items, s.items);
  }

  lemma KeysOnce(p: Pool)
    requires Sound(p)
    ensures KeysApart(p.items)
  {
    SoundJoinable(p);
  }

  lemma BothFresh(p: Pool, s: Pool, xs: seq<Item>)
    requires Listing(s.items, xs) && s.items.Keys !! p.items.Keys
    ensures Fresh(p.items + s.items, p, xs) && PartOf(p.items, p.items + s.items)
    ensures (p.items + s.items).Keys == p.items.Keys + Elems(IdsOf(xs))
  {
  }

  lemma ReinsertionKeeps(p: Pool, s: Pool, xs: seq<Item>, cfg: Config)
    requires Sound(p) && Sound(s) && Listing(s.items, xs) && Reinsertable(p, s.items, cfg)
    ensures Rebuilt(p, p.items + s.items, InsertAll(p, xs)) && InsertAll(p, xs).items == p.items + s.items
    ensures WithinLimits(InsertAll(p, xs), cfg)
  {
    BothJoinable(p, s, cfg);
    BothFresh(p, s, xs);
    InsertAllItems(p.items + s.items, p, xs);
    TotalsBoth(p.items, s.items);
  }

  lemma TwiceListed(a: seq<Id>, b: seq<Id>)
    requires NoDup(a + b)
    ensures Elems(a) !! Elems(b)
  {
    forall i, j | 0 <= i < |a| && 0 <= j < |b| ensures a[i] != b[j] {
      assert (a + b)[i] == a[i] && (a + b)[|a| + j] == b[j];
    }
  }

  lemma ReinsertableWhen(p: Pool, s: Pool, xs: seq<Item>, cfg: Config)
    requires Sound(p) && Counted(s) && Listing(s.items, xs)
    requires Sound(InsertAll(p, xs)) && WithinLimits(InsertAll(p, xs), cfg)
    ensures Reinsertable(p, s.items, cfg)
  {
    Reinserted(p, s.items, xs);
    TwiceListed(p.order, IdsOf(xs));
    TotalsBoth(p.items, s.items);
    SoundJoinable(InsertAll(p, xs));
  }

  /**
   * A re-insertion keeps every index invariant and both limits exactly then. Ids must be fresh: one that is active
   * is listed twice in the admission order and, by `FreshWhenExact`, paid for twice.
   */
  lemma ReinsertionSafeIff(p: Pool, s: Pool, xs: seq<Item>, cfg: Config)
    requires Sound(p) && Sound(s) && Listing(s.items, xs)
    ensures Sound(InsertAll(p, xs)) && WithinLimits(InsertAll(p, xs), cfg) <==> Reinsertable(p, s.items, cfg)
  {
    if Reinsertable(p, s.items, cfg) {
      ReinsertionKeeps(p, s, xs, cfg);
    } else if Sound(InsertAll(p, xs)) && WithinLimits(InsertAll(p, xs), cfg) {
      ReinsertableWhen(p, s, xs, cfg);
    }
  }

  // ── An id that is active already ──

  lemma {:induction false} InsertAllTotals(p: Pool, xs: seq<Item>)
    ensures InsertAll(p, xs).totalCost == SatAdd(p.totalCost, Rebuild(xs).totalCost)
    ensures InsertAll(p, xs).totalSpends == SatAdd(p.totalSpends, Rebuild(xs).totalSpends)
  {
    if xs != [] { InsertAllTotals(p, xs[..|xs| - 1]); }
  }

  lemma SharedSpends(a: map<Id, Item>, b: map<Id, Item>)
    ensures Sum(Spends(a), a.Keys * b.Keys) == 0 <==> forall x :: x in a && x in b ==> a[x].numSpends == 0
  {
    SumZeroIff(Spends(a), a.Keys * b.Keys);
    assert forall x :: x in a.Keys * b.Keys ==> Spends(a)[x] == a[x].numSpends;
  }

  /** Both limited totals are the exact sums. */
  ghost predicate TotalsExact(p: Pool) { p.totalCost == Total(Costs(p.items)) && p.totalSpends == Total(Spends(p.items)) }

  lemma OverlayTotals(a: map<Id, Item>, b: map<Id, Item>)
    ensures Total(Costs(a + b)) == Total(Costs(a)) + Total(Costs(b)) <==> Weightless(a, b)
    ensures Total(Spends(a + b)) == Total(Spends(a)) + Total(Spends(b)) <==> forall x :: x in a && x in b ==> a[x].numSpends == 0
  {
    CostsBoth(a, b);
    SpendsBoth(a, b);
    OverlaySum(Costs(a), Costs(b));
    OverlaySum(Spends(a), Spends(b));
    SharedCosts(a, b);
    SharedSpends(a, b);
    assert Costs(a).Keys == Spends(a).Keys == a.Keys && Costs(b).Keys == Spends(b).Keys == b.Keys;
  }

  /**
   * The two totals alone: they stay exact and within their limits if and only if no listed item that is active
   * already costs anything or spends anything, and there is room for all of it.
   */
  lemma ReinsertionTotalsIff(p: Pool, s: Pool, xs: seq<Item>, cfg: Config)
    requires TotalsExact(p) && Sound(s) && Listing(s.items, xs) && Detectable(cfg)
    ensures TotalsExact(InsertAll(p, xs)) && WithinLimits(InsertAll(p, xs), cfg) <==>
      && (forall b :: b in p.items && b in s.items ==> p.items[b].virtualCost == 0 == p.items[b].numSpends)
      && p.totalCost + Total(Costs(s.items)) <= cfg.maxTotalCost && p.totalSpends + Total(Spends(s.items)) <= cfg.maxSpends
  {
    InsertedTotals(p, s, xs);
    TotalsIff(p, s.items, InsertAll(p, xs), cfg);
  }

  lemma InsertedTotals(p: Pool, s: Pool, xs: seq<Item>)
    requires Sound(s) && Listing(s.items, xs)
    ensures var r := InsertAll(p, xs);
      && r.items == p.items + s.items && r.totalCost == SatAdd(p.totalCost, Total(Costs(s.items)))
      && r.totalSpends == SatAdd(p.totalSpends, Total(Spends(s.items)))
  {
    InsertAllTotals(p, xs);
    RestoredItems(s, xs);
    Reinserted(p, s.items, xs);
  }

  lemma TotalsIff(p: Pool, items: map<Id, Item>, r: Pool, cfg: Config)
    requires TotalsExact(p) && Detectable(cfg) && r.items == p.items + items
    requires r.totalCost == SatAdd(p.totalCost, Total(Costs(items))) && r.totalSpends == SatAdd(p.totalSpends, Total(Spends(items)))
    ensures TotalsExact(r) && WithinLimits(r, cfg) <==>
      && (forall b :: b in p.items && b in items ==> p.items[b].virtualCost == 0 == p.items[b].numSpends)
      && p.totalCost + Total(Costs(items)) <= cfg.maxTotalCost && p.totalSpends + Total(Spends(items)) <= cfg.maxSpends
  {
    OverlayTotals(p.items, items);
  }

  /** So a re-insertion after which the totals are right lists nobody who is active and has a cost or a spend. */
  lemma FreshWhenExact(p: Pool, s: Pool, xs: seq<Item>, cfg: Config)
    requires TotalsExact(p) && Sound(s) && Listing(s.items, xs) && Detectable(cfg)
    requires forall b :: b in p.items ==> p.items[b].virtualCost > 0 || p.items[b].numSpends > 0
    requires TotalsExact(InsertAll(p, xs)) && WithinLimits(InsertAll(p, xs), cfg)
    ensures s.items.Keys !! p.items.Keys
  {
    ReinsertionTotalsIff(p, s, xs, cfg);
  }

  /** Into a pool that is still empty everything can be re-inserted. */
  lemma EmptyReinsertable(s: Pool, cfg: Config)
    requires Sound(s) && WithinLimits(s, cfg)
    ensures Reinsertable(EMPTY, s.items, cfg)
  {
    SoundJoinable(s);
    EmptyJoins(s.items);
    assert EMPTY.totalCost == 0 && EMPTY.totalSpends == 0;
  }

  lemma EmptyJoins(items: map<Id, Item>)
    ensures EMPTY.items + items == items && items.Keys !! EMPTY.items.Keys
  {
  }

  /** An id that was committed meanwhile is paid for twice. */
  lemma ReinsertedTwice(p: Pool, item: Item)
    requires Counted(p) && item.id in p.items && p.items[item.id].virtualCost == item.virtualCost > 0
    requires p.totalCost < U64_MAX
    ensures !Counted(Insert(p, item)) && Insert(p, item).totalCost > Total(Costs(Insert(p, item).items))
  {
    InsertSums(p, item);
    SameCosts(p.items, item);
  }

  lemma SameCosts(items: map<Id, Item>, item: Item)
    requires item.id in items && items[item.id].virtualCost == item.virtualCost
    ensures Costs(items)[item.id := item.virtualCost] == Costs(items)
  {
  }

  // ── Coin indexes ──

  /** Nobody in the pool spends a coin of the snapshot. */
  ghost predicate CoinsUnclaimed(p: Pool, items: map<Id, Item>) {
    forall a, b, c :: a in p.items && b in items && c in p.items[a].removals ==> c !in items[b].removals
  }

  lemma UnclaimedBoth(p: Pool, items: map<Id, Item>)
    requires Unclaimed(p.items) && Unclaimed(items) && p.items.Keys !! items.Keys
    ensures Unclaimed(p.items + items) <==> CoinsUnclaimed(p, items)
  {
    var all := p.items + items;
    if Unclaimed(all) {
      forall a, b, c | a in p.items && b in items && c in p.items[a].removals ensures c !in items[b].removals {
        assert all[a] == p.items[a] && all[b] == items[b];
      }
    }
  }

  /** Complete coin indexes stay complete if and only if no coin of the snapshot has been claimed meanwhile. */
  lemma ReinsertionCoinsIff(p: Pool, s: Pool, xs: seq<Item>, cfg: Config)
    requires Sound(p) && Sound(s) && Listing(s.items, xs) && Reinsertable(p, s.items, cfg)
    requires CoinsFull(p) && CoinsFull(s)
    ensures CoinsFull(InsertAll(p, xs)) <==> CoinsUnclaimed(p, s.items)
  {
    ReinsertionKeeps(p, s, xs, cfg);
    FullUnclaimed(p);
    FullUnclaimed(s);
    UnclaimedBoth(p, s.items);
    if CoinsFull(InsertAll(p, xs)) { FullUnclaimed(InsertAll(p, xs)); }
  }

  // ── Fees ──

  lemma FeesOnce(r: Pool, item: Item)
    requires item.id !in r.items && Total(Fees(Insert(r, item).items)) <= U64_MAX
    requires Total(Fees(r.items)) <= U64_MAX ==> FeesExact(r)
    ensures FeesExact(Insert(r, item))
  {
    InsertSums(r, item);
    TotalInsert(Fees(r.items), item.id, item.fee);
    InsertFeesExactIff(r, item);
  }

  /** Exact unless the sum has outgrown a u64. */
  ghost predicate FeesKnown(p: Pool) { Total(Fees(p.items)) <= U64_MAX ==> FeesExact(p) }

  lemma FeesOnceMore(r: Pool, item: Item)
    requires item.id !in r.items && FeesKnown(r)
    ensures FeesKnown(Insert(r, item))
  {
    if Total(Fees(Insert(r, item).items)) <= U64_MAX { FeesOnce(r, item); }
  }

  lemma FeesGrow(p: Pool, xs: seq<Item>, n: nat, before: Pool) returns (r: Pool)
    requires NoDup(IdsOf(xs)) && Elems(IdsOf(xs)) !! p.items.Keys && n < |xs| && before == InsertAll(p, xs[..n]) && FeesKnown(before)
    ensures r == InsertAll(p, xs[..n + 1]) && FeesKnown(r)
  {
    NextIsNew(p, xs, n);
    InsertAllOne(p, xs, n + 1);
    FeesOnceMore(before, xs[n]);
    r := Insert(before, xs[n]);
  }

  lemma {:induction false} ReinsertionFees(p: Pool, xs: seq<Item>, n: nat) returns (r: Pool)
    requires FeesExact(p) && NoDup(IdsOf(xs)) && Elems(IdsOf(xs)) !! p.items.Keys && n <= |xs|
    ensures r == InsertAll(p, xs[..n]) && FeesKnown(r)
  {
    if n == 0 {
      return p;
    }
    var k: nat :| k + 1 == n;
    var before := ReinsertionFees(p, xs, k);
    r := FeesGrow(p, xs, k, before);
  }

  // ── Families ──

  /** The listed items that name `q` as a parent. */
  ghost function ChildrenIn(xs: seq<Item>, q: Id): set<Id> { set x | x in xs && q in x.dependsOn :: x.id }

  lemma InsertChild(p: Pool, x: Item, q: Id)
    ensures Succ(Insert(p, x).dependents, q) == Succ(p.dependents, q) + if q in x.dependsOn then {x.id} else {}
    ensures q in Insert(p, x).dependents <==> q in p.dependents || q in x.dependsOn
  {
  }

  lemma ChildrenPush(xs: seq<Item>, x: Item, q: Id)
    ensures ChildrenIn(xs + [x], q) == ChildrenIn(xs, q) + if q in x.dependsOn then {x.id} else {}
  {
    assert forall y :: y in xs + [x] <==> y in xs || y == x;
  }

  lemma {:induction false} ReinsertedChildren(p: Pool, xs: seq<Item>, q: Id)
    ensures Succ(InsertAll(p, xs).dependents, q) == Succ(p.dependents, q) + ChildrenIn(xs, q)
    ensures q in InsertAll(p, xs).dependents <==> q in p.dependents || ChildrenIn(xs, q) != {}
  {
    if xs != [] {
      var ys, x := xs[..|xs| - 1], xs[|xs| - 1];
      ReinsertedChildren(p, ys, q);
      InsertChild(InsertAll(p, ys), x, q);
      assert xs == ys + [x];
      ChildrenPush(ys, x, q);
    }
  }

  /** Recorded children afterwards: those of the pool and those of the snapshot. */
  lemma ChildrenBoth(p: Pool, s: Pool, xs: seq<Item>, q: Id)
    requires Edged(s) && EdgesFull(s) && Keyed(s.items) && Listing(s.items, xs)
    ensures Succ(InsertAll(p, xs).dependents, q) == Succ(p.dependents, q) + Succ(s.dependents, q)
    ensures q in InsertAll(p, xs).dependents <==> q in p.dependents || q in s.dependents
  {
    ReinsertedChildren(p, xs, q);
    ChildrenAre(s, q);
    ListedChildren(s, xs, q);
  }

  lemma ListedChildren(s: Pool, xs: seq<Item>, q: Id)
    requires Listing(s.items, xs)
    ensures ChildrenIn(xs, q) == set c | c in s.items && q in s.items[c].dependsOn
  {
    forall c ensures c in ChildrenIn(xs, q) <==> c in s.items && q in s.items[c].dependsOn { ListedChild(s, xs, q, c); }
  }

  lemma ListedChild(s: Pool, xs: seq<Item>, q: Id, c: Id)
    requires Listing(s.items, xs)
    ensures (exists x :: x in xs && q in x.dependsOn && x.id == c) <==> c in s.items && q in s.items[c].dependsOn
  {
    if c in s.items && q in s.items[c].dependsOn {
      assert c in Elems(IdsOf(xs));
      var i :| 0 <= i < |xs| && IdsOf(xs)[i] == c;
      assert xs[i] in xs;
    }
  }

  lemma ScoresBoth(p: Pool, s: Pool, r: Pool)
    requires ScoresCover(p) && ScoresCover(s) && p.items.Keys !! s.items.Keys && r.items == p.items + s.items
    requires forall q :: Succ(r.dependents, q) == Succ(p.dependents, q) + Succ(s.dependents, q)
    requires forall q :: q in r.dependents <==> q in p.dependents || q in s.dependents
    requires forall q :: Succ(p.dependents, q) <= p.items.Keys && Succ(s.dependents, q) <= s.items.Keys
    ensures ScoresCover(r)
  {
    forall b | b in r.items
      ensures OwnOf(r.items)[b] <= ScoreOf(r.items)[b]
      ensures forall c :: c in r.items && c in Succ(r.dependents, b) ==> PackageOf(r.items)[c] <= ScoreOf(r.items)[b]
    {
      var own := if b in s.items then s else p;
      assert OwnOf(own.items)[b] <= ScoreOf(own.items)[b];
      forall c | c in r.items && c in Succ(r.dependents, b) ensures PackageOf(r.items)[c] <= ScoreOf(r.items)[b] {
        assert c in Succ(own.dependents, b);
        assert PackageOf(own.items)[c] <= ScoreOf(own.items)[b];
      }
    }
  }

  lemma ReinsertionScores(p: Pool, s: Pool, xs: seq<Item>, cfg: Config)
    requires Sound(p) && Sound(s) && Listing(s.items, xs) && Reinsertable(p, s.items, cfg)
    requires ScoresCover(p) && ScoresCover(s) && EdgesFull(s)
    ensures ScoresCover(InsertAll(p, xs))
  {
    Reinserted(p, s.items, xs);
    forall q
      ensures Succ(InsertAll(p, xs).dependents, q) == Succ(p.dependents, q) + Succ(s.dependents, q)
      ensures q in InsertAll(p, xs).dependents <==> q in p.dependents || q in s.dependents
      ensures Succ(p.dependents, q) <= p.items.Keys && Succ(s.dependents, q) <= s.items.Keys
    {
      ChildrenBoth(p, s, xs, q);
      ChildrenActive(p, q);
      ChildrenActive(s, q);
    }
    ScoresBoth(p, s, InsertAll(p, xs));
  }

  lemma DepthsBoth(a: map<Id, nat>, b: map<Id, nat>, g: Edges, h: Edges, both: Edges)
    requires DepthsExact(a, g) && ParentClosed(g, a.Keys) && DepthsExact(b, h) && ParentClosed(h, b.Keys) && a.Keys !! b.Keys
    requires forall x :: x in a ==> Succ(both, x) == Succ(g, x)
    requires forall x :: x in b ==> Succ(both, x) == Succ(h, x)
    ensures DepthsExact(a + b, both)
  {
    forall x | x in a + b ensures (a + b)[x] == DepthOver(a + b, Succ(both, x)) {
      if x in a {
        assert Depths(a + b, Succ(g, x)) == Depths(a, Succ(g, x));
      } else {
        assert Depths(a + b, Succ(h, x)) == Depths(b, Succ(h, x));
      }
    }
  }

  lemma AggregatedBoth(a: map<Id, nat>, pa: map<Id, nat>, b: map<Id, nat>, pb: map<Id, nat>, g: Edges, h: Edges, both: Edges)
    requires Aggregated(a, pa, g) && Aggregated(b, pb, h) && a.Keys !! b.Keys
    requires forall x :: x in a ==> Succ(both, x) == Succ(g, x)
    requires forall x :: x in b ==> Succ(both, x) == Succ(h, x)
    ensures Aggregated(a + b, pa + pb, both)
  {
    forall x | x in a + b
      ensures Succ(both, x) <= (a + b).Keys && (pa + pb)[x] == (a + b)[x] + Sum(pa + pb, Succ(both, x))
    {
      if x in a { SumAgree(pa + pb, pa, Succ(g, x)); } else { SumAgree(pa + pb, pb, Succ(h, x)); }
    }
  }

  lemma ParentsBoth(p: Pool, s: Pool, r: Pool)
    requires Edged(p) && Edged(s) && Edged(r) && p.items.Keys !! s.items.Keys && r.items == p.items + s.items
    ensures forall x :: x in p.items ==> Succ(r.dependencies, x) == Succ(p.dependencies, x)
    ensures forall x :: x in s.items ==> Succ(r.dependencies, x) == Succ(s.dependencies, x)
  {
    forall x ensures x in p.items ==> Succ(r.dependencies, x) == Succ(p.dependencies, x)
      ensures x in s.items ==> Succ(r.dependencies, x) == Succ(s.dependencies, x)
    {
      SuccDependencies(p, x);
      SuccDependencies(s, x);
      SuccDependencies(r, x);
    }
  }

  lemma DepthOfBoth(a: map<Id, Item>, b: map<Id, Item>)
    ensures DepthOf(a + b) == DepthOf(a) + DepthOf(b)
  {
  }

  lemma FeesBoth(a: map<Id, Item>, b: map<Id, Item>)
    ensures Fees(a + b) == Fees(a) + Fees(b) && PackageFees(a + b) == PackageFees(a) + PackageFees(b)
  {
  }

  lemma PackageCostsBoth(a: map<Id, Item>, b: map<Id, Item>)
    ensures PackageCosts(a + b) == PackageCosts(a) + PackageCosts(b)
  {
  }

  lemma ValuesBoth(p: Pool, s: Pool, r: Pool)
    requires Edged(p) && Edged(s) && Edged(r) && Family(p) && Family(s) && p.items.Keys !! s.items.Keys && r.items == p.items + s.items
    ensures DepthsExact(DepthOf(r.items), r.dependencies)
    ensures Aggregated(Fees(r.items), PackageFees(r.items), r.dependencies)
    ensures Aggregated(Costs(r.items), PackageCosts(r.items), r.dependencies)
  {
    DepthOfBoth(p.items, s.items);
    FeesBoth(p.items, s.items);
    CostsBoth(p.items, s.items);
    PackageCostsBoth(p.items, s.items);
    ParentsBoth(p, s, r);
    ActiveParents(p);
    ActiveParents(s);
    DepthsBoth(DepthOf(p.items), DepthOf(s.items), p.dependencies, s.dependencies, r.dependencies);
    AggregatedBoth(Fees(p.items), PackageFees(p.items), Fees(s.items), PackageFees(s.items), p.dependencies, s.dependencies, r.dependencies);
    AggregatedBoth(Costs(p.items), PackageCosts(p.items), Costs(s.items), PackageCosts(s.items), p.dependencies, s.dependencies, r.dependencies);
  }

  lemma NoOrphansBoth(a: map<Id, Item>, b: map<Id, Item>)
    requires NoOrphans(a) && NoOrphans(b)
    ensures NoOrphans(a + b)
  {
  }

  /** Two families without a common member make one. */
  lemma ReinsertionKeepsFamily(p: Pool, s: Pool, xs: seq<Item>, cfg: Config)
    requires Sound(p) && Sound(s) && Listing(s.items, xs) && Reinsertable(p, s.items, cfg) && Family(p) && Family(s)
    ensures Family(InsertAll(p, xs))
  {
    NoOrphansBoth(p.items, s.items);
    ReinsertionKeeps(p, s, xs, cfg);
    ValuesBoth(p, s, InsertAll(p, xs));
    ReinsertionScores(p, s, xs, cfg);
  }
}
