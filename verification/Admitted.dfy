/** What a commit keeps, for every pool, candidate and tie-breaking order (src/mempool/submit.rs:582-934). */
module Admitted {
  import opened Prelude
  import opened Items
  import opened Graph
  import opened PoolState
  import opened PoolInvariants
  import opened Evictions
  import opened Packages
  import opened Rbf
  import opened Admission

  /** The limits leave saturating additions a value of their own. */
  predicate Detectable(cfg: Config) { cfg.maxTotalCost < U64_MAX && cfg.maxSpends < U64_MAX }

  ghost predicate WithinLimits(p: Pool, cfg: Config) {
    p.totalCost <= cfg.maxTotalCost && p.totalSpends <= cfg.maxSpends
  }

  ghost predicate Shallow(p: Pool, cfg: Config) { forall b :: b in p.items ==> p.items[b].depth <= cfg.maxDepth }

  // ── Removal only shrinks ──

  lemma {:induction false} RemoveSeqShrinks(p: Pool, ids: seq<Id>)
    ensures RemoveSeq(p, ids).totalCost <= p.totalCost && RemoveSeq(p, ids).totalSpends <= p.totalSpends
  {
    if ids != [] { RemoveSeqShrinks(p, ids[..|ids| - 1]); }
  }

  lemma AncestorsShrink(p: Pool, ids: seq<Id>, roots: set<Id>)
    requires Edged(p)
    ensures Reach(RemoveSeq(p, ids).dependencies, {}, roots) <= Reach(p.dependencies, {}, roots)
  {
    forall x ensures Succ(RemoveSeq(p, ids).dependencies, x) <= Succ(p.dependencies, x) { RemoveSeqParents(p, ids, x); }
    ReachCovers(p.dependencies, {}, roots);
    ReachMono(RemoveSeq(p, ids).dependencies, p.dependencies, {}, roots, roots);
  }

  lemma AlikeKin(a: map<Id, Item>, b: map<Id, Item>)
    requires Alike(a, b)
    ensures DepthOf(a) == DepthOf(b) && PackageFees(a) == PackageFees(b) && PackageCosts(a) == PackageCosts(b)
  {
    forall x | x in a
      ensures a[x].depth == b[x].depth && a[x].packageFee == b[x].packageFee
      ensures a[x].packageVirtualCost == b[x].packageVirtualCost
    {
      assert a[x].SameButScore(b[x]);
    }
  }

  lemma DropKin(a: map<Id, Item>, s: set<Id>)
    ensures DepthOf(a - s) == DepthOf(a) - s
    ensures PackageFees(a - s) == PackageFees(a) - s && PackageCosts(a - s) == PackageCosts(a) - s
  {
  }

  lemma AddKin(a: map<Id, Item>, item: Item)
    ensures DepthOf(a[item.id := item]) == DepthOf(a)[item.id := item.depth]
    ensures PackageFees(a[item.id := item]) == PackageFees(a)[item.id := item.packageFee]
    ensures PackageCosts(a[item.id := item]) == PackageCosts(a)[item.id := item.packageVirtualCost]
  {
  }

  lemma RemoveSeqKin(p: Pool, ids: seq<Id>)
    ensures var r := RemoveSeq(p, ids).items;
      && DepthOf(r) == DepthOf(p.items) - Elems(ids)
      && PackageFees(r) == PackageFees(p.items) - Elems(ids) && PackageCosts(r) == PackageCosts(p.items) - Elems(ids)
      && Costs(r) == Costs(p.items) - Elems(ids) && Fees(r) == Fees(p.items) - Elems(ids)
  {
    RemoveSeqItems(p, ids);
    AlikeKin(RemoveSeq(p, ids).items, p.items - Elems(ids));
    AlikeSums(RemoveSeq(p, ids).items, p.items - Elems(ids));
    DropKin(p.items, Elems(ids));
    DropCosts(p.items, Elems(ids));
  }

  lemma AdmitItems(p: Pool, item: Item)
    ensures Alike(Admit(p, item).items, p.items[item.id := item])
  {
    RaiseProjections(Insert(p, item), item.id);
  }

  lemma AdmitGraph(p: Pool, item: Item)
    ensures Admit(p, item).dependencies == JoinParents(p.dependencies, item.dependsOn, item.id)
    ensures Admit(p, item).dependents == JoinChildren(p.dependents, item.dependsOn, item.id)
  {
  }

  lemma AdmitKin(p: Pool, item: Item)
    ensures var r := Admit(p, item).items;
      && DepthOf(r) == DepthOf(p.items)[item.id := item.depth]
      && PackageFees(r) == PackageFees(p.items)[item.id := item.packageFee]
      && PackageCosts(r) == PackageCosts(p.items)[item.id := item.packageVirtualCost]
      && Costs(r) == Costs(p.items)[item.id := item.virtualCost] && Fees(r) == Fees(p.items)[item.id := item.fee]
  {
    AdmitItems(p, item);
    AlikeKin(Admit(p, item).items, p.items[item.id := item]);
    AlikeSums(Admit(p, item).items, p.items[item.id := item]);
    AddKin(p.items, item);
    AddSums(p.items, item);
  }

  // ── The state just before insertion ──

  /** Where displacement leads, and that the newcomer then fits, whatever was displaced. */
  lemma Cleared(p: Pool, c: Candidate, v: Chainview, cfg: Config, d: Displaced, ok: bool)
    requires Sound(p) && Replaces(p, c, v, cfg, d, ok)
    ensures Sound(RemoveSeq(p, Gone(d))) && (CoinsFull(p) ==> CoinsFull(RemoveSeq(p, Gone(d))))
    ensures RemoveSeq(p, Gone(d)).items.Keys == p.items.Keys - Elems(Gone(d))
    ensures RemoveSeq(p, Gone(d)).totalCost <= p.totalCost && RemoveSeq(p, Gone(d)).totalSpends <= p.totalSpends
    ensures ok ==> SatAdd(RemoveSeq(p, Gone(d)).totalCost, c.Cost()) <= cfg.maxTotalCost
  {
    var q := RemoveSeq(p, d.replaced);
    RemoveSeqSound(p, Gone(d));
    RemoveSeqItems(p, Gone(d));
    RemoveSeqShrinks(p, Gone(d));
    RemoveSeqConcat(p, d.replaced, Evicted(d.squeezed));
    if ok { RoomAfter(q, Built(p, q, c, v), v, cfg, d.squeezed); }
  }

  lemma RoomAfter(q: Pool, item: Item, v: Chainview, cfg: Config, w: Eviction)
    requires w.k <= |w.exposed| && w.m <= |w.shielded| && RoomMade(q, item, v, cfg, w, true)
    ensures Fits(RemoveSeq(q, Evicted(w)), item.virtualCost, cfg.maxTotalCost)
  {
    if Fits(q, item.virtualCost, cfg.maxTotalCost) {
      assert Evicted(w) == [];
    } else {
      SuccessMeansRoom(q, item, cfg.maxTotalCost, v.height, cfg.protection, w);
    }
  }

  lemma PassedChecks(p: Pool, c: Candidate, v: Chainview, cfg: Config)
    requires CoinsTrue(p) && Refusal(p, c, v, cfg).None?
    ensures SatAdd(p.totalSpends, c.numSpends) <= cfg.maxSpends
    ensures DepthOver(DepthOf(p.items), ParentsOf(p, c, v)) <= cfg.maxDepth
    ensures c.id !in Reach(p.dependencies, {}, ParentsOf(p, c, v))
    ensures Objection(p, c, cfg).None?
  {
  }

  lemma BuiltFields(p: Pool, q: Pool, c: Candidate, v: Chainview)
    requires CoinsTrue(p)
    ensures var item := Built(p, q, c, v);
      && item.id == c.id && item.virtualCost == c.Cost() && item.numSpends == c.numSpends && item.fee == c.fee
      && item.dedupKeys == c.dedupKeys && item.dependsOn == ParentsOf(p, c, v) <= p.items.Keys
      && item.depth == DepthOver(DepthOf(p.items), ParentsOf(p, c, v))
      && item.fpc == item.descendantScore == c.Rate()
      && item.packageFee == PackageValue(c.fee, PackageFees(p.items), ParentsOf(p, c, v))
      && item.packageVirtualCost == PackageValue(c.Cost(), PackageCosts(p.items), ParentsOf(p, c, v))
      && item.removals == c.removals && item.additions == c.additions
  {
    ParentsActive(p, c, v);
  }

  /** Its times and locks, each in its place. */
  lemma BuiltTimes(p: Pool, q: Pool, c: Candidate, v: Chainview)
    requires CoinsTrue(p)
    ensures Built(p, q, c, v).heightAdded == v.height
    ensures Built(p, q, c, v).assertHeight == c.window.assertHeight && Built(p, q, c, v).assertSeconds == c.window.assertSeconds
    ensures Built(p, q, c, v).assertBeforeHeight == c.window.beforeHeight
    ensures Built(p, q, c, v).assertBeforeSeconds == c.window.beforeSeconds
  {
  }

  /** Its cost, lineage, rates and savings. */
  lemma BuiltRest(p: Pool, q: Pool, c: Candidate, v: Chainview)
    requires CoinsTrue(p)
    ensures var item := Built(p, q, c, v);
      && item.cost == c.cost && item.launcher == c.launcher
      && item.packageFpc == FpcScaled(item.packageFee, item.packageVirtualCost)
      && item.fpc == FpcScaled(item.fee, item.virtualCost)
    ensures var item, shared := Built(p, q, c, v), |set i | 0 <= i < |c.dedupKeys| && c.dedupKeys[i] in q.dedup.index|;
      var saving := if c.numSpends == 0 then 0 else (c.cost / c.numSpends) * shared;
      && item.costSaving == (if saving > U64_MAX then U64_MAX else saving)
      && item.effectiveVirtualCost == (if saving > item.virtualCost then 0 else item.virtualCost - saving)
  {
    DedupedCount(q.dedup.index, c.dedupKeys);
  }

  /** Everything the pool's `insert` relies on holds when a commit reaches it. */
  lemma ReadyToInsert(p: Pool, c: Candidate, v: Chainview, cfg: Config, d: Displaced)
    requires Sound(p) && Replaces(p, c, v, cfg, d, true) && Refusal(p, c, v, cfg).None?
    requires c.id !in p.items && NoDup(c.dedupKeys) && Detectable(cfg)
    ensures var r0, item := RemoveSeq(p, Gone(d)), Built(p, RemoveSeq(p, d.replaced), c, v);
      && Sound(r0) && CanInsert(r0, item) && NoCycleThrough(r0, item)
      && r0.totalCost + item.virtualCost <= cfg.maxTotalCost && r0.totalSpends + item.numSpends <= cfg.maxSpends
      && item.depth <= cfg.maxDepth
  {
    Cleared(p, c, v, cfg, d, true);
    PassedChecks(p, c, v, cfg);
    BuiltFields(p, RemoveSeq(p, d.replaced), c, v);
    AncestorsShrink(p, Gone(d), ParentsOf(p, c, v));
  }

  // ── Every commit keeps every index, both limits and the depth bound ──

  lemma AdmitTotals(p: Pool, item: Item)
    ensures Admit(p, item).totalCost == SatAdd(p.totalCost, item.virtualCost)
    ensures Admit(p, item).totalSpends == SatAdd(p.totalSpends, item.numSpends)
  {
  }

  lemma InsertedKeeps(p: Pool, item: Item, cfg: Config)
    requires Sound(p) && CanInsert(p, item) && NoCycleThrough(p, item)
    requires p.totalCost + item.virtualCost <= cfg.maxTotalCost && p.totalSpends + item.numSpends <= cfg.maxSpends
    ensures Sound(Admit(p, item)) && WithinLimits(Admit(p, item), cfg)
  {
    InsertSound(p, item);
    RaiseKeeps(Insert(p, item), item.id);
    AdmitTotals(p, item);
  }

  lemma CommitCases(p: Pool, c: Candidate, v: Chainview, cfg: Config, d: Displaced, r: Pool, answer: Option<MempoolError>)
    requires CoinsTrue(p) && Commits(p, c, v, cfg, d, r, answer)
    ensures r == p
         || (Replaces(p, c, v, cfg, d, answer != Some(MempoolFull)) && answer.Some? && r == RemoveSeq(p, Gone(d)))
         || (c.id !in p.items && Refusal(p, c, v, cfg).None? && Replaces(p, c, v, cfg, d, true) && answer.None?
             && r == Admit(RemoveSeq(p, Gone(d)), Built(p, RemoveSeq(p, d.replaced), c, v)))
  {
  }

  /** Main invariant of admission, with no assumption on dedup, families or evictions. */
  lemma CommitKeeps(p: Pool, c: Candidate, v: Chainview, cfg: Config, d: Displaced, r: Pool, answer: Option<MempoolError>)
    requires Sound(p) && Commits(p, c, v, cfg, d, r, answer)
    requires NoDup(c.dedupKeys) && Detectable(cfg) && WithinLimits(p, cfg)
    ensures Sound(r) && WithinLimits(r, cfg)
  {
    CommitCases(p, c, v, cfg, d, r, answer);
    if r != p {
      if answer.Some? {
        Cleared(p, c, v, cfg, d, answer != Some(MempoolFull));
      } else {
        ReadyToInsert(p, c, v, cfg, d);
        InsertedKeeps(RemoveSeq(p, Gone(d)), Built(p, RemoveSeq(p, d.replaced), c, v), cfg);
      }
    }
  }

  lemma ShallowDepths(p: Pool, cfg: Config)
    ensures Shallow(p, cfg) <==> forall b :: b in DepthOf(p.items) ==> DepthOf(p.items)[b] <= cfg.maxDepth
  {
    if forall b :: b in DepthOf(p.items) ==> DepthOf(p.items)[b] <= cfg.maxDepth {
      forall b | b in p.items ensures p.items[b].depth <= cfg.maxDepth { assert DepthOf(p.items)[b] <= cfg.maxDepth; }
    }
  }

  lemma RemovalShallow(p: Pool, gone: seq<Id>, cfg: Config)
    requires Shallow(p, cfg)
    ensures Shallow(RemoveSeq(p, gone), cfg)
  {
    ShallowDepths(p, cfg);
    ShallowDepths(RemoveSeq(p, gone), cfg);
    RemoveSeqKin(p, gone);
  }

  lemma AdmitShallow(p: Pool, item: Item, cfg: Config)
    requires Shallow(p, cfg) && item.depth <= cfg.maxDepth
    ensures Shallow(Admit(p, item), cfg)
  {
    ShallowDepths(p, cfg);
    ShallowDepths(Admit(p, item), cfg);
    AdmitKin(p, item);
  }

  /** No active item is ever deeper than configured. */
  lemma CommitShallow(p: Pool, c: Candidate, v: Chainview, cfg: Config, d: Displaced, r: Pool, answer: Option<MempoolError>)
    requires CoinsTrue(p) && Commits(p, c, v, cfg, d, r, answer) && Shallow(p, cfg)
    ensures Shallow(r, cfg)
  {
    CommitCases(p, c, v, cfg, d, r, answer);
    if r != p {
      RemovalShallow(p, Gone(d), cfg);
      if answer.None? {
        PassedChecks(p, c, v, cfg);
        BuiltFields(p, RemoveSeq(p, d.replaced), c, v);
        AdmitShallow(RemoveSeq(p, Gone(d)), Built(p, RemoveSeq(p, d.replaced), c, v), cfg);
      }
    }
  }

  // ── No double spend with dedup off ──

  predicate RootedCandidate(c: Candidate) {
    forall x :: x in c.additions ==> x.Created? && x.parent in c.removals
  }

  /** Once its conflicts are gone, nobody spends the newcomer's coins. */
  lemma CoinsFreed(p: Pool, c: Candidate, gone: seq<Id>)
    requires Sound(p) && CoinsFull(p) && c.dedupKeys == [] && Elems(Conflicts(p, c)) <= Elems(gone)
    ensures Elems(c.removals) !! RemoveSeq(p, gone).coinIndex.Keys
  {
    var q := RemoveSeq(p, gone);
    RemoveSeqSound(p, gone);
    RemoveSeqCoins(p, gone);
    ConflictIdsFacts(p.coinIndex, c.removals, Shared(p.dedup.index, c.dedupKeys));
    OwnersSurvive(q.coinIndex, Removals(q.items), p.coinIndex, Removals(p.items), Elems(gone));
  }

  /** An entry that is still true after a removal belonged to a survivor all along. */
  lemma OwnersSurvive(now: map<CoinId, Id>, left: map<Id, set<CoinId>>, before: map<CoinId, Id>, own: map<Id, set<CoinId>>, gone: set<Id>)
    requires IndexTrue(now, left) && IndexFull(before, own) && left == own - gone
    ensures forall x :: x in now ==> x in before && before[x] !in gone
  {
    forall x | x in now ensures x in before && before[x] !in gone {
      assert x in own[now[x]];
    }
  }

  /** With dedup off, `coin_index` and `mempool_coins` stay the exact inverses of spending and creating. */
  lemma CommitNoDoubleSpend(p: Pool, c: Candidate, v: Chainview, cfg: Config, d: Displaced, r: Pool, answer: Option<MempoolError>)
    requires Sound(p) && CoinsFull(p) && Commits(p, c, v, cfg, d, r, answer)
    requires c.dedupKeys == [] && RootedCandidate(c)
    ensures CoinsFull(r)
  {
    CommitCases(p, c, v, cfg, d, r, answer);
    if r != p {
      var r0, item := RemoveSeq(p, Gone(d)), Built(p, RemoveSeq(p, d.replaced), c, v);
      Cleared(p, c, v, cfg, d, answer != Some(MempoolFull));
      if answer.None? {
        ElemsConcat(d.replaced, Evicted(d.squeezed));
        ReachCovers(p.dependents, {}, Elems(Conflicts(p, c)));
        CoinsFreed(p, c, Gone(d));
        InsertCoinsFull(r0, item);
        RaiseKeeps(Insert(r0, item), item.id);
      }
    }
  }

  // ── What a refusal leaves behind ──

  /** Known before the commit: nothing conflicts with the newcomer and nobody would be squeezed out for it. */
  ghost predicate NobodyInTheWay(p: Pool, c: Candidate, v: Chainview, cfg: Config) {
    && Conflicts(p, c) == []
    && NobodyToDisplace(p, c.Cost(), c.Rate(), NearExpiry(c.window.beforeHeight, v.height, cfg.protection),
                        cfg.maxTotalCost, v.height, cfg.protection)
  }

  lemma RoomDisplacesNobodyIff(q: Pool, item: Item, v: Chainview, cfg: Config, w: Eviction, ok: bool)
    requires w.k <= |w.exposed| && w.m <= |w.shielded| && RoomMade(q, item, v, cfg, w, ok)
    ensures Evicted(w) == []
       <==> NobodyToDisplace(q, item.virtualCost, item.fpc, item.ExpiryProtected(v.height, cfg.protection),
                             cfg.maxTotalCost, v.height, cfg.protection)
  {
    if !Fits(q, item.virtualCost, cfg.maxTotalCost) {
      DisplacesNobodyIff(q, item, cfg.maxTotalCost, v.height, cfg.protection, w, ok);
    }
  }

  /** A commit past the first checks displaces nobody exactly when nobody is in the way. */
  lemma NobodyGoneIff(p: Pool, c: Candidate, v: Chainview, cfg: Config, d: Displaced, ok: bool)
    requires CoinsTrue(p) && Replaces(p, c, v, cfg, d, ok)
    ensures Gone(d) == [] <==> NobodyInTheWay(p, c, v, cfg)
  {
    ReachCovers(p.dependents, {}, Elems(Conflicts(p, c)));
    ElemsEmpty(Conflicts(p, c));
    ElemsEmpty(d.replaced);
    if Conflicts(p, c) == [] {
      ReachLeast(p.dependents, {}, {}, {});
      assert d.replaced == [];
      RoomDisplacesNobodyIff(p, Built(p, p, c, v), v, cfg, d.squeezed, ok);
    }
  }

  /**
   * A turned-away submission leaves the pool untouched exactly when an early check refuses it or
   * nobody is in its way, both known beforehand.
   */
  lemma RefusedUnchangedIff(p: Pool, c: Candidate, v: Chainview, cfg: Config, d: Displaced, r: Pool, answer: Option<MempoolError>)
    requires Sound(p) && Commits(p, c, v, cfg, d, r, answer) && answer.Some?
    ensures r == p <==> Refusal(p, c, v, cfg).Some? || NobodyInTheWay(p, c, v, cfg)
  {
    if Refusal(p, c, v, cfg).None? {
      NobodyGoneIff(p, c, v, cfg, d, answer != Some(MempoolFull));
      UnchangedIffNobodyGone(p, c, v, cfg, d, answer != Some(MempoolFull));
    }
  }

  lemma UnchangedIffNobodyGone(p: Pool, c: Candidate, v: Chainview, cfg: Config, d: Displaced, ok: bool)
    requires CoinsTrue(p) && Replaces(p, c, v, cfg, d, ok)
    ensures RemoveSeq(p, Gone(d)) == p <==> Gone(d) == []
  {
    GoneActive(p, c, v, cfg, d, ok);
    RemoveSeqKeys(p, Gone(d));
    ElemsEmpty(Gone(d));
  }

  lemma GoneActive(p: Pool, c: Candidate, v: Chainview, cfg: Config, d: Displaced, ok: bool)
    requires CoinsTrue(p) && Replaces(p, c, v, cfg, d, ok)
    ensures Elems(Gone(d)) <= p.items.Keys
  {
    var q := RemoveSeq(p, d.replaced);
    RemoveSeqItems(p, d.replaced);
    ElemsConcat(d.replaced, Evicted(d.squeezed));
    EvictedActive(q, Built(p, q, c, v), v, cfg, d.squeezed, ok);
  }

  lemma EvictedActive(q: Pool, item: Item, v: Chainview, cfg: Config, w: Eviction, ok: bool)
    requires w.k <= |w.exposed| && w.m <= |w.shielded| && RoomMade(q, item, v, cfg, w, ok)
    ensures Elems(Evicted(w)) <= q.items.Keys
  {
    ElemsConcat(First(w), w.shielded[..w.m]);
    if !Fits(q, item.virtualCost, cfg.maxTotalCost) {
      DisplacedWereCheaper(q, item, cfg.maxTotalCost, v.height, cfg.protection, w, ok);
      RemoveSeqItems(q, First(w));
    }
  }
}
