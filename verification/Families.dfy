/**
 * Families: depth, package aggregates and scores of pools without orphans
 * (src/mempool/submit.rs:613-702, src/pools/active.rs:236-322).
 */
module Families {
  import opened Prelude
  import opened Items
  import opened Sums
  import opened Graph
  import opened PoolState
  import opened PoolInvariants
  import opened Cascades
  import opened Packages
  import opened Scores
  import opened Rbf
  import opened Admission
  import opened Admitted
  import opened Survival
  import opened Sparing

  /** Parents are active and list their children; depth, packages and scores are what they should be. */
  ghost predicate Family(p: Pool) {
    && NoOrphans(p.items) && EdgesFull(p)
    && DepthsExact(DepthOf(p.items), p.dependencies)
    && Aggregated(Fees(p.items), PackageFees(p.items), p.dependencies)
    && Aggregated(Costs(p.items), PackageCosts(p.items), p.dependencies)
    && ScoresCover(p)
  }

  /** Everything a family promises about one member. */
  lemma FamilyMeans(p: Pool, b: Id)
    requires Sound(p) && Family(p) && b in p.items
    ensures forall xs :: Walk(p.dependencies, xs) && xs[0] == b ==> |xs| - 1 <= p.items[b].depth
    ensures exists xs :: Walk(p.dependencies, xs) && xs[0] == b && |xs| - 1 == p.items[b].depth
    ensures forall q :: q in p.items[b].dependsOn ==> q in p.items && p.items[q].depth < p.items[b].depth
    ensures var kin := Up(p.dependencies, {b});
      && kin <= p.items.Keys
      && Sum(Fees(p.items), kin) <= p.items[b].packageFee
      && Sum(Costs(p.items), kin) <= p.items[b].packageVirtualCost
      && (SinglePaths(p.dependencies, {b}) ==>
            Sum(Fees(p.items), kin) == p.items[b].packageFee && Sum(Costs(p.items), kin) == p.items[b].packageVirtualCost)
    ensures p.items[b].fpc <= p.items[b].descendantScore
    ensures forall c :: c in p.items && b in p.items[c].dependsOn ==> p.items[c].packageFpc <= p.items[b].descendantScore
  {
    DepthIsLongestPath(DepthOf(p.items), p.dependencies, b);
    ParentsAbove(p, b);
    PackageBounds(Fees(p.items), PackageFees(p.items), p.dependencies, b);
    PackageBounds(Costs(p.items), PackageCosts(p.items), p.dependencies, b);
    ScoreAbove(p, b);
  }

  lemma ParentsAbove(p: Pool, b: Id)
    requires Edged(p) && NoOrphans(p.items) && DepthsExact(DepthOf(p.items), p.dependencies) && b in p.items
    ensures forall q :: q in p.items[b].dependsOn ==> q in p.items && p.items[q].depth < p.items[b].depth
  {
    SuccDependencies(p, b);
    forall q | q in p.items[b].dependsOn ensures q in p.items && p.items[q].depth < p.items[b].depth {
      ParentShallower(DepthOf(p.items), p.dependencies, b, q);
    }
  }

  lemma ScoreAbove(p: Pool, b: Id)
    requires EdgesFull(p) && ScoresCover(p) && b in p.items
    ensures p.items[b].fpc <= p.items[b].descendantScore
    ensures forall c :: c in p.items && b in p.items[c].dependsOn ==> p.items[c].packageFpc <= p.items[b].descendantScore
  {
    assert OwnOf(p.items)[b] <= ScoreOf(p.items)[b];
    forall c | c in p.items && b in p.items[c].dependsOn ensures p.items[c].packageFpc <= p.items[b].descendantScore {
      assert c in Succ(p.dependents, b);
      assert PackageOf(p.items)[c] <= ScoreOf(p.items)[b];
    }
  }

  // ── Removals ──

  lemma SurvivorsParents(p: Pool, gone: seq<Id>)
    requires Edged(p) && NoOrphans(RemoveSeq(p, gone).items)
    ensures ParentClosed(RemoveSeq(p, gone).dependencies, p.items.Keys - Elems(gone))
    ensures forall b :: b in p.items.Keys - Elems(gone) ==> Succ(RemoveSeq(p, gone).dependencies, b) == Succ(p.dependencies, b)
  {
    RemoveSeqChildren(p, gone, 0);
    RemoveSeqKeys(p, gone);
    ActiveParents(RemoveSeq(p, gone));
    forall b | b in p.items.Keys - Elems(gone) ensures Succ(RemoveSeq(p, gone).dependencies, b) == Succ(p.dependencies, b) {
      RemoveSeqParents(p, gone, b);
    }
  }

  lemma SurvivorsDepth(p: Pool, gone: seq<Id>)
    requires Edged(p) && DepthsExact(DepthOf(p.items), p.dependencies) && NoOrphans(RemoveSeq(p, gone).items)
    ensures DepthsExact(DepthOf(RemoveSeq(p, gone).items), RemoveSeq(p, gone).dependencies)
  {
    RemoveSeqKin(p, gone);
    SurvivorsParents(p, gone);
    assert DepthOf(p.items).Keys == p.items.Keys;
    DropDepths(DepthOf(p.items), p.dependencies, Elems(gone), RemoveSeq(p, gone).dependencies);
  }

  lemma SurvivorsFees(p: Pool, gone: seq<Id>)
    requires Edged(p) && NoOrphans(RemoveSeq(p, gone).items)
    requires Aggregated(Fees(p.items), PackageFees(p.items), p.dependencies)
    ensures Aggregated(Fees(RemoveSeq(p, gone).items), PackageFees(RemoveSeq(p, gone).items), RemoveSeq(p, gone).dependencies)
  {
    RemoveSeqKin(p, gone);
    SurvivorsParents(p, gone);
    assert Fees(p.items).Keys == p.items.Keys;
    DropAggregated(Fees(p.items), PackageFees(p.items), p.dependencies, Elems(gone), RemoveSeq(p, gone).dependencies);
  }

  lemma SurvivorsCosts(p: Pool, gone: seq<Id>)
    requires Edged(p) && NoOrphans(RemoveSeq(p, gone).items)
    requires Aggregated(Costs(p.items), PackageCosts(p.items), p.dependencies)
    ensures Aggregated(Costs(RemoveSeq(p, gone).items), PackageCosts(RemoveSeq(p, gone).items), RemoveSeq(p, gone).dependencies)
  {
    RemoveSeqKin(p, gone);
    SurvivorsParents(p, gone);
    assert Costs(p.items).Keys == p.items.Keys;
    DropAggregated(Costs(p.items), PackageCosts(p.items), p.dependencies, Elems(gone), RemoveSeq(p, gone).dependencies);
  }

  /** Removals that orphan nobody keep a family; a cascade is such a removal. */
  lemma RemovalKeepsFamily(p: Pool, gone: seq<Id>)
    requires Edged(p) && Family(p) && NoOrphans(RemoveSeq(p, gone).items)
    ensures Family(RemoveSeq(p, gone))
  {
    SurvivorsDepth(p, gone);
    SurvivorsFees(p, gone);
    SurvivorsCosts(p, gone);
    RemoveSeqScores(p, gone);
    EdgesKept(p, gone);
  }

  /** The two halves of a closed family graph, read off the parent sets alone. */
  ghost predicate ParentsAmong(parents: Edges) { forall c, q :: c in parents && q in parents[c] ==> q in parents }

  ghost predicate ChildrenListed(parents: Edges, children: Edges) {
    forall c, q :: c in parents && q in parents[c] ==> c in Succ(children, q)
  }

  lemma FamilyGraph(p: Pool)
    ensures NoOrphans(p.items) <==> ParentsAmong(Parents(p.items))
    ensures EdgesFull(p) <==> ChildrenListed(Parents(p.items), p.dependents)
  {
    var parents := Parents(p.items);
    assert parents.Keys == p.items.Keys;
    forall b, q | b in p.items && q in p.items[b].dependsOn
      ensures b in parents && q in parents[b]
      ensures ParentsAmong(parents) ==> q in p.items
      ensures ChildrenListed(parents, p.dependents) ==> b in Succ(p.dependents, q)
    {
      assert q in parents[b];
      if ParentsAmong(parents) { assert q in parents.Keys; }
    }
  }

  lemma EdgesKept(p: Pool, gone: seq<Id>)
    requires Edged(p) && EdgesFull(p) && NoOrphans(RemoveSeq(p, gone).items)
    ensures EdgesFull(RemoveSeq(p, gone))
  {
    var r := RemoveSeq(p, gone);
    RemoveSeqItems(p, gone);
    forall c, q | c in r.items && q in r.items[c].dependsOn ensures c in Succ(r.dependents, q) {
      AlikeFields(r.items, p.items - Elems(gone), c);
      assert c in Succ(p.dependents, q);
      RemoveSeqChildren(p, gone, q);
    }
  }

  lemma SweepKeepsFamily(p: Pool, gone: seq<Id>)
    requires Edged(p) && Family(p) && Swept(p, gone)
    ensures Family(RemoveSeq(p, gone))
  {
    ClosedNoOrphans(p, gone);
    RemovalKeepsFamily(p, gone);
  }

  // ── Insertions ──

  /** Package values of the newcomer are its own plus its parents', with nothing lost to the u64 range. */
  ghost predicate PackagesFit(p: Pool, c: Candidate, v: Chainview)
    requires CoinsTrue(p)
  {
    var parents := ParentsOf(p, c, v);
    ParentsActive(p, c, v);
    && c.fee + Sum(PackageFees(p.items), parents) <= U64_MAX
    && c.Cost() + Sum(PackageCosts(p.items), parents) <= U64_MAX
  }

  /** A package value is the exact sum if and only if that sum fits a u64. */
  lemma PackageExactIff(own: U64, pack: map<Id, nat>, parents: set<Id>)
    requires parents <= pack.Keys
    ensures PackageValue(own, pack, parents) == own + Sum(pack, parents) <==> own + Sum(pack, parents) <= U64_MAX
  {
  }

  /** What a newcomer must bring along. */
  ghost predicate FitsFamily(p: Pool, item: Item) {
    && item.id !in p.items && item.dependsOn <= p.items.Keys && item.fpc <= item.descendantScore
    && item.depth == DepthOver(DepthOf(p.items), item.dependsOn)
    && item.packageFee == item.fee + Sum(PackageFees(p.items), item.dependsOn)
    && item.packageVirtualCost == item.virtualCost + Sum(PackageCosts(p.items), item.dependsOn)
  }

  lemma AdmitDepths(p: Pool, item: Item)
    requires Edged(p) && NoOrphans(p.items) && DepthsExact(DepthOf(p.items), p.dependencies) && FitsFamily(p, item)
    ensures DepthsExact(DepthOf(Admit(p, item).items), Admit(p, item).dependencies)
  {
    AdmitKin(p, item);
    AdmitGraph(p, item);
    SuccDependencies(p, item.id);
    ActiveParents(p);
    JoinDepths(DepthOf(p.items), p.dependencies, item.id, item.dependsOn);
  }

  lemma AdmitPackageFees(p: Pool, item: Item)
    requires Edged(p) && Aggregated(Fees(p.items), PackageFees(p.items), p.dependencies) && FitsFamily(p, item)
    ensures Aggregated(Fees(Admit(p, item).items), PackageFees(Admit(p, item).items), Admit(p, item).dependencies)
  {
    AdmitKin(p, item);
    AdmitGraph(p, item);
    SuccDependencies(p, item.id);
    JoinAggregated(Fees(p.items), PackageFees(p.items), p.dependencies, item.id, item.dependsOn, item.fee, item.packageFee);
  }

  lemma AdmitPackageCosts(p: Pool, item: Item)
    requires Edged(p) && Aggregated(Costs(p.items), PackageCosts(p.items), p.dependencies) && FitsFamily(p, item)
    ensures Aggregated(Costs(Admit(p, item).items), PackageCosts(Admit(p, item).items), Admit(p, item).dependencies)
  {
    AdmitKin(p, item);
    AdmitGraph(p, item);
    SuccDependencies(p, item.id);
    JoinAggregated(Costs(p.items), PackageCosts(p.items), p.dependencies, item.id, item.dependsOn,
                   item.virtualCost, item.packageVirtualCost);
  }

  lemma AdmitKeepsFamily(p: Pool, item: Item)
    requires Edged(p) && Family(p) && FitsFamily(p, item)
    ensures Family(Admit(p, item))
  {
    AdmitDepths(p, item);
    AdmitPackageFees(p, item);
    AdmitPackageCosts(p, item);
    AdmitScores(p, item);
    AdmitEdges(p, item);
  }

  lemma JoinListed(parents: Edges, children: Edges, id: Id, ps: set<Id>)
    requires ParentsAmong(parents) && ChildrenListed(parents, children) && id !in parents && ps <= parents.Keys
    ensures ParentsAmong(parents[id := ps]) && ChildrenListed(parents[id := ps], JoinChildren(children, ps, id))
  {
    var m, kids := parents[id := ps], JoinChildren(children, ps, id);
    forall c, q | c in m && q in m[c] ensures q in m && c in Succ(kids, q) {
      if c != id { assert q in parents[c] && c in Succ(children, q); }
    }
  }

  lemma AdmitEdges(p: Pool, item: Item)
    requires NoOrphans(p.items) && EdgesFull(p) && item.id !in p.items && item.dependsOn <= p.items.Keys
    ensures NoOrphans(Admit(p, item).items) && EdgesFull(Admit(p, item))
  {
    FamilyGraph(p);
    FamilyGraph(Admit(p, item));
    AdmitParents(p, item);
    AdmitGraph(p, item);
    JoinListed(Parents(p.items), p.dependents, item.id, item.dependsOn);
  }

  lemma AdmitParents(p: Pool, item: Item)
    ensures Parents(Admit(p, item).items) == Parents(p.items)[item.id := item.dependsOn]
  {
    AdmitItems(p, item);
    AlikeProjections(Admit(p, item).items, p.items[item.id := item]);
    AddOthers(p.items, item);
  }

  // ── Commits ──

  lemma SumStands(m: map<Id, nat>, gone: set<Id>, parents: set<Id>)
    requires parents <= m.Keys && parents !! gone
    ensures parents <= (m - gone).Keys && Sum(m - gone, parents) == Sum(m, parents)
  {
    SumAgree(m - gone, m, parents);
  }

  lemma DepthStands(depth: map<Id, nat>, gone: set<Id>, parents: set<Id>)
    requires parents !! gone
    ensures DepthOver(depth - gone, parents) == DepthOver(depth, parents)
  {
    assert Depths(depth - gone, parents) == Depths(depth, parents);
  }

  /** The family values worked out before the displacement are still right after it. */
  lemma ValuesStand(p: Pool, c: Candidate, v: Chainview, gone: seq<Id>)
    requires CoinsTrue(p) && ParentsOf(p, c, v) !! Elems(gone)
    ensures var r0, parents := RemoveSeq(p, gone).items, ParentsOf(p, c, v);
      && parents <= PackageFees(r0).Keys && parents <= PackageCosts(r0).Keys && parents <= r0.Keys && parents <= p.items.Keys
      && DepthOver(DepthOf(r0), parents) == DepthOver(DepthOf(p.items), parents)
      && Sum(PackageFees(r0), parents) == Sum(PackageFees(p.items), parents)
      && Sum(PackageCosts(r0), parents) == Sum(PackageCosts(p.items), parents)
  {
    var parents := ParentsOf(p, c, v);
    ParentsActive(p, c, v);
    RemoveSeqKin(p, gone);
    RemoveSeqKeys(p, gone);
    DepthStands(DepthOf(p.items), Elems(gone), parents);
    SumStands(PackageFees(p.items), Elems(gone), parents);
    SumStands(PackageCosts(p.items), Elems(gone), parents);
  }

  /** Known before the commit: it spares kin, and a newcomer that gets in has package sums within a u64. */
  ghost predicate FamilySpared(p: Pool, c: Candidate, v: Chainview, cfg: Config)
    requires CoinsTrue(p)
  {
    KinSpared(p, c, v, cfg) && (Enters(p, c, v, cfg) ==> PackagesFit(p, c, v))
  }

  /** A commit that spares everybody's parents keeps a family. */
  lemma CommitKeepsFamily(p: Pool, c: Candidate, v: Chainview, cfg: Config, d: Displaced, r: Pool, answer: Option<MempoolError>)
    requires Sound(p) && Family(p) && Commits(p, c, v, cfg, d, r, answer) && Detectable(cfg) && FamilySpared(p, c, v, cfg)
    ensures Family(r)
  {
    CommitCases(p, c, v, cfg, d, r, answer);
    if r != p {
      SurvivorsNoOrphans(p, c, v, cfg, d, answer != Some(MempoolFull));
      RemovalKeepsFamily(p, Gone(d));
      if answer.None? {
        EntersIff(p, c, v, cfg, d, true);
        OwnParentsStay(p, c, v, cfg, d, true);
        NewcomerFits(p, c, v, cfg, d);
      }
    }
  }

  lemma JoinedSum(own: map<Id, nat>, pack: map<Id, nat>, g: Edges, id: Id, ps: set<Id>, mine: nat, whole: nat)
    requires ps <= pack.Keys && id !in ps && Succ(g, id) == {}
    requires Aggregated(own[id := mine], pack[id := whole], JoinParents(g, ps, id))
    ensures whole == mine + Sum(pack, ps)
  {
    assert Succ(JoinParents(g, ps, id), id) == ps;
    SumAgree(pack[id := whole], pack, ps);
  }

  /** A newcomer that joins a family rightly brings exact package values. */
  lemma JoinedExactly(p: Pool, item: Item)
    requires Edged(p) && item.id !in p.items && item.dependsOn <= p.items.Keys && Family(Admit(p, item))
    ensures item.dependsOn <= PackageFees(p.items).Keys && item.dependsOn <= PackageCosts(p.items).Keys
    ensures item.packageFee == item.fee + Sum(PackageFees(p.items), item.dependsOn)
    ensures item.packageVirtualCost == item.virtualCost + Sum(PackageCosts(p.items), item.dependsOn)
  {
    AdmitKin(p, item);
    AdmitGraph(p, item);
    SuccDependencies(p, item.id);
    JoinedSum(Fees(p.items), PackageFees(p.items), p.dependencies, item.id, item.dependsOn, item.fee, item.packageFee);
    JoinedSum(Costs(p.items), PackageCosts(p.items), p.dependencies, item.id, item.dependsOn, item.virtualCost, item.packageVirtualCost);
  }

  lemma JoinedFits(p: Pool, c: Candidate, v: Chainview, cfg: Config, d: Displaced)
    requires Sound(p) && Replaces(p, c, v, cfg, d, true) && c.id !in p.items && ParentsOf(p, c, v) !! Elems(Gone(d))
    requires Family(Admit(RemoveSeq(p, Gone(d)), Built(p, RemoveSeq(p, d.replaced), c, v)))
    ensures PackagesFit(p, c, v)
  {
    Cleared(p, c, v, cfg, d, true);
    BuiltFields(p, RemoveSeq(p, d.replaced), c, v);
    ValuesStand(p, c, v, Gone(d));
    JoinedExactly(RemoveSeq(p, Gone(d)), Built(p, RemoveSeq(p, d.replaced), c, v));
  }

  /** If a newcomer that gets in brings package sums beyond a u64, its family values are wrong. */
  lemma Misfit(p: Pool, c: Candidate, v: Chainview, cfg: Config) returns (d: Displaced)
    requires Sound(p) && Detectable(cfg) && c.id !in p.items && Refusal(p, c, v, cfg).None?
    requires Enters(p, c, v, cfg) && ParentsSpared(p, c, v, cfg) && !PackagesFit(p, c, v)
    ensures Replaces(p, c, v, cfg, d, true) && !Family(After(p, c, v, d, true))
  {
    var ok;
    d, ok := SomeOutcome(p, c, v, cfg);
    EntersIff(p, c, v, cfg, d, ok);
    OwnParentsStay(p, c, v, cfg, d, true);
    if Family(After(p, c, v, d, true)) { JoinedFits(p, c, v, cfg, d); }
  }

  lemma KinNeeded(p: Pool, c: Candidate, v: Chainview, cfg: Config)
    requires Sound(p) && Family(p) && Detectable(cfg) && c.id !in p.items && Refusal(p, c, v, cfg).None?
    requires forall d, r, answer :: Commits(p, c, v, cfg, d, r, answer) ==> Family(r)
    ensures KinSpared(p, c, v, cfg)
  {
    forall d, r, answer | Commits(p, c, v, cfg, d, r, answer) ensures NoOrphans(r.items) { assert Family(r); }
    OrphansNobodyIff(p, c, v, cfg);
  }

  /** A commit past the checks keeps a family under every order of hash maps and ties if and only if it spares the family. */
  lemma CommitFamilyIff(p: Pool, c: Candidate, v: Chainview, cfg: Config)
    requires Sound(p) && Family(p) && Detectable(cfg) && c.id !in p.items && Refusal(p, c, v, cfg).None?
    ensures (forall d, r, answer :: Commits(p, c, v, cfg, d, r, answer) ==> Family(r)) <==> FamilySpared(p, c, v, cfg)
  {
    if FamilySpared(p, c, v, cfg) {
      forall d, r, answer | Commits(p, c, v, cfg, d, r, answer) ensures Family(r) {
        CommitKeepsFamily(p, c, v, cfg, d, r, answer);
      }
    } else if forall d, r, answer :: Commits(p, c, v, cfg, d, r, answer) ==> Family(r) {
      KinNeeded(p, c, v, cfg);
      var d := Misfit(p, c, v, cfg);
      CommitFollows(p, c, v, cfg, d, true);
      assert false;
    }
  }

  lemma NewcomerFits(p: Pool, c: Candidate, v: Chainview, cfg: Config, d: Displaced)
    requires Sound(p) && Replaces(p, c, v, cfg, d, true) && c.id !in p.items
    requires PackagesFit(p, c, v) && ParentsOf(p, c, v) !! Elems(Gone(d)) && Family(RemoveSeq(p, Gone(d)))
    ensures Family(Admit(RemoveSeq(p, Gone(d)), Built(p, RemoveSeq(p, d.replaced), c, v)))
  {
    Cleared(p, c, v, cfg, d, true);
    BuiltFields(p, RemoveSeq(p, d.replaced), c, v);
    ValuesStand(p, c, v, Gone(d));
    PackageExactIff(c.fee, PackageFees(p.items), ParentsOf(p, c, v));
    PackageExactIff(c.Cost(), PackageCosts(p.items), ParentsOf(p, c, v));
    AdmitKeepsFamily(RemoveSeq(p, Gone(d)), Built(p, RemoveSeq(p, d.replaced), c, v));
  }

  /** Scores cover what they must after every commit that spares the newcomer's own parents. */
  lemma CommitScores(p: Pool, c: Candidate, v: Chainview, cfg: Config, d: Displaced, r: Pool, answer: Option<MempoolError>)
    requires Sound(p) && ScoresCover(p) && Commits(p, c, v, cfg, d, r, answer) && Detectable(cfg)
    requires Enters(p, c, v, cfg) ==> ParentsSpared(p, c, v, cfg)
    ensures ScoresCover(r)
  {
    CommitCases(p, c, v, cfg, d, r, answer);
    if r != p {
      RemoveSeqScores(p, Gone(d));
      if answer.None? {
        EntersIff(p, c, v, cfg, d, true);
        OwnParentsStay(p, c, v, cfg, d, true);
        Cleared(p, c, v, cfg, d, true);
        BuiltFields(p, RemoveSeq(p, d.replaced), c, v);
        AdmitScores(RemoveSeq(p, Gone(d)), Built(p, RemoveSeq(p, d.replaced), c, v));
      }
    }
  }

  // ── Cycles ──

  lemma ReachedFromSome(g: Edges, roots: set<Id>, id: Id)
    requires id !in roots
    ensures id in Reach(g, {}, roots) <==> exists b :: b in Reach(g, {}, roots) && id in Succ(g, b)
  {
    var up := Reach(g, {}, roots);
    ReachCovers(g, {}, roots);
    if forall b :: b in up ==> id !in Succ(g, b) {
      forall x | x in up - {id} ensures Succ(g, x) <= up - {id} {}
      ReachLeast(g, {}, roots, up - {id});
    }
  }

  /**
   * The defensive cycle check fires exactly when one of the newcomer's ancestors still names the
   * newcomer as its parent, which takes an orphan; without orphans it never fires.
   */
  lemma CycleIffLostParent(p: Pool, c: Candidate, v: Chainview)
    requires Sound(p) && c.id !in p.items
    ensures c.id in Reach(p.dependencies, {}, ParentsOf(p, c, v))
       <==> exists b :: b in Reach(p.dependencies, {}, ParentsOf(p, c, v)) && b in p.items && c.id in p.items[b].dependsOn
    ensures NoOrphans(p.items) ==> c.id !in Reach(p.dependencies, {}, ParentsOf(p, c, v))
  {
    var g, parents := p.dependencies, ParentsOf(p, c, v);
    ParentsActive(p, c, v);
    ReachedFromSome(g, parents, c.id);
    forall b ensures c.id in Succ(g, b) <==> b in p.items && c.id in p.items[b].dependsOn { SuccDependencies(p, b); }
  }
}
