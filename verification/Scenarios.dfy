/** Pools built commit by commit from the empty one: what the commits of the boundary cases have in common. */
module Scenarios {
  import opened Prelude
  import opened Items
  import opened Sums
  import opened Graph
  import opened PoolState
  import opened PoolInvariants
  import opened Evictions
  import opened Packages
  import opened Timelocks
  import opened Rbf
  import opened Admission
  import opened Admitted
  import Families
  import Scores
  import Runs

  const ANYTIME: Window := Window(None, None, None, None)
  const NOBODY: Displaced := Displaced([], NO_EVICTION)

  const COIN: CoinId := Minted(0)
  const OTHER: CoinId := Minted(1)
  const CHAIN: Chainview := Chainview({COIN, OTHER}, 0, true)
  const CFG: Config := Config(100_000_000, 100, 25, 10_000_000, 100)

  /** A bundle without timelocks that costs one million per spend, half of it the penalty. */
  function Bid(id: Id, fee: U64, removals: seq<CoinId>, additions: seq<CoinId>): Candidate
    requires |removals| <= 10
  {
    Candidate(id, fee, 500_000 * |removals|, |removals|, removals, additions, ANYTIME, None, [])
  }

  ghost predicate Offers(c: Candidate, id: Id, fee: U64, cost: U64, removals: seq<CoinId>, additions: seq<CoinId>) {
    && c.id == id && c.fee == fee && c.Cost() == cost && c.removals == removals && c.additions == additions
    && c.numSpends == |removals| && c.dedupKeys == [] && c.window == ANYTIME
  }

  lemma BidOffers(id: Id, fee: U64, removals: seq<CoinId>, additions: seq<CoinId>)
    requires |removals| <= 10
    ensures Offers(Bid(id, fee, removals, additions), id, fee, 1_000_000 * |removals|, removals, additions)
  {
  }

  /** As it enters without parents ... */
  function Root(c: Candidate, height: U64): Item { MakeItem(c, height, {}, 0, c.fee, c.Cost(), 0) }

  /** ... and under one parent. */
  function ChildOf(c: Candidate, height: U64, parent: Item): Item {
    MakeItem(c, height, {parent.id}, 1 + parent.depth,
             SatAdd(c.fee, parent.packageFee), SatAdd(c.Cost(), parent.packageVirtualCost), 0)
  }

  /** A pool within its limits in which such scenes are set. */
  ghost predicate Set(p: Pool, cfg: Config) { Sound(p) && WithinLimits(p, cfg) && Detectable(cfg) }

  /** A run of submissions alone. */
  ghost predicate Filled(states: seq<Pool>, acts: seq<Runs.Act>, cfg: Config) {
    Runs.Run(states, acts, cfg) && forall j :: 0 <= j < |acts| ==> acts[j].Submission?
  }

  /** A state that submissions lead to. */
  ghost predicate Reached(p: Pool, cfg: Config) {
    exists states, acts :: Filled(states, acts, cfg) && states[|acts|] == p
  }

  /** From a reached state this submission gets this answer and leads to that state. */
  ghost predicate Answers(p: Pool, c: Candidate, v: Chainview, cfg: Config, d: Displaced, r: Pool, answer: Option<MempoolError>) {
    Reached(p, cfg) && CoinsTrue(p) && Commits(p, c, v, cfg, d, r, answer)
  }

  lemma EmptyReached(cfg: Config)
    requires Detectable(cfg)
    ensures Reached(EMPTY, cfg)
  {
    assert Filled([EMPTY], [], cfg);
  }

  lemma ReachedSet(p: Pool, cfg: Config)
    requires Reached(p, cfg)
    ensures Set(p, cfg)
  {
    var states, acts :| Filled(states, acts, cfg) && states[|acts|] == p;
    Runs.UnbrokenTimely(states, acts, cfg);
    Runs.EveryStateSafe(states, acts, cfg, |acts|);
  }

  lemma ReachedCoins(p: Pool, cfg: Config)
    requires Reached(p, cfg)
    ensures CoinsTrue(p)
  {
    ReachedSet(p, cfg);
  }

  lemma SameStep(states: seq<Pool>, more: seq<Pool>, cfg: Config, i: nat, act: Runs.Act)
    requires i + 1 < |states| <= |more| && (forall j :: 0 <= j < |states| ==> more[j] == states[j]) && Runs.Step(states, cfg, i, act)
    ensures Runs.Step(more, cfg, i, act)
  {
  }

  lemma RunGoesOn(states: seq<Pool>, acts: seq<Runs.Act>, cfg: Config, act: Runs.Act, r: Pool)
    requires Runs.Run(states, acts, cfg) && Runs.Step(states + [r], cfg, |acts|, act)
    ensures Runs.Run(states + [r], acts + [act], cfg)
  {
    var more, longer := states + [r], acts + [act];
    forall i | 0 <= i < |longer| ensures Runs.Step(more, cfg, i, longer[i]) {
      if i < |acts| {
        assert Runs.Step(states, cfg, i, acts[i]);
        SameStep(states, more, cfg, i, acts[i]);
      }
    }
  }

  lemma ReachedBy(states: seq<Pool>, acts: seq<Runs.Act>, cfg: Config, r: Pool)
    requires Filled(states, acts, cfg) && states[|acts|] == r
    ensures Reached(r, cfg)
  {
  }

  lemma MoreSubmissions(acts: seq<Runs.Act>, act: Runs.Act)
    requires act.Submission? && forall j :: 0 <= j < |acts| ==> acts[j].Submission?
    ensures forall j :: 0 <= j < |acts + [act]| ==> (acts + [act])[j].Submission?
  {
  }

  lemma ReachedNext(states: seq<Pool>, acts: seq<Runs.Act>, cfg: Config, act: Runs.Act, r: Pool)
    requires Filled(states, acts, cfg) && Runs.Step(states + [r], cfg, |acts|, act) && act.Submission?
    ensures Reached(r, cfg)
  {
    RunGoesOn(states, acts, cfg, act, r);
    MoreSubmissions(acts, act);
    ReachedBy(states + [r], acts + [act], cfg, r);
  }

  lemma SubmissionStep(states: seq<Pool>, cfg: Config, i: nat, c: Candidate, v: Chainview, d: Displaced, answer: Option<MempoolError>)
    requires i + 1 < |states| && CoinsTrue(states[i]) && c.dedupKeys == [] && Commits(states[i], c, v, cfg, d, states[i + 1], answer)
    ensures Runs.Step(states, cfg, i, Runs.Submission(c, v, d, answer))
  {
  }

  lemma AnswerReached(p: Pool, c: Candidate, v: Chainview, cfg: Config, d: Displaced, r: Pool, answer: Option<MempoolError>)
    requires Answers(p, c, v, cfg, d, r, answer) && c.dedupKeys == []
    ensures Reached(r, cfg)
  {
    var states, acts :| Filled(states, acts, cfg) && states[|acts|] == p;
    var act, more := Runs.Submission(c, v, d, answer), states + [r];
    SubmissionStep(more, cfg, |acts|, c, v, d, answer);
    ReachedNext(states, acts, cfg, act, r);
  }

  lemma NothingReplaced(p: Pool, c: Candidate, v: Chainview, cfg: Config)
    requires CoinsTrue(p) && Conflicts(p, c) == [] && Fits(p, c.Cost(), cfg.maxTotalCost)
    ensures Replaces(p, c, v, cfg, NOBODY, true) && Gone(NOBODY) == []
  {
    ElemsEmpty(Conflicts(p, c));
    ReachLeast(p.dependents, {}, {}, {});
    ElemsEmpty<Id>([]);
    assert Replaced(p, c, []);
  }

  /** A newcomer that passes the checks, conflicts with nobody and fits displaces nobody. */
  lemma Enters(p: Pool, c: Candidate, v: Chainview, cfg: Config)
    requires Set(p, cfg) && v.policyAccepts && c.dedupKeys == [] && c.id !in p.items
    requires Refusal(p, c, v, cfg).None? && Conflicts(p, c) == [] && Fits(p, c.Cost(), cfg.maxTotalCost)
    ensures Commits(p, c, v, cfg, NOBODY, Admit(p, Built(p, p, c, v)), None)
    ensures Set(Admit(p, Built(p, p, c, v)), cfg)
  {
    NothingReplaced(p, c, v, cfg);
    CommitKeeps(p, c, v, cfg, NOBODY, Admit(p, Built(p, p, c, v)), None);
  }

  /** A newcomer without conflicts that does not fit yet. */
  lemma MakesRoom(p: Pool, c: Candidate, v: Chainview, cfg: Config, item: Item, w: Eviction, ok: bool)
    requires CoinsTrue(p) && Replaced(p, c, []) && Built(p, p, c, v) == item && !Fits(p, item.virtualCost, cfg.maxTotalCost)
    requires EvictedFor(p, item, cfg.maxTotalCost, v.height, cfg.protection, w, ok)
    ensures Replaces(p, c, v, cfg, Displaced([], w), ok) && Gone(Displaced([], w)) == Evicted(w) && RemoveSeq(p, []) == p
  {
    assert RemoveSeq(p, []) == p;
    assert Gone(Displaced([], w)) == Evicted(w);
  }

  lemma NothingLifted(q: Pool, id: Id)
    requires id in q.items
    requires forall x :: x in Succ(q.dependencies, id) ==> x in q.items && q.items[id].packageFpc <= q.items[x].descendantScore
    ensures Raise(q, id) == q
  {
    ReachLeast(q.dependencies, Blocking(q.items, q.dependencies, q.items[id].packageFpc), Succ(q.dependencies, id), {});
    assert Rated(q.items, {}, q.items[id].packageFpc) == q.items;
  }

  /** Where no parent scores below the newcomer's package rate, nobody's score is lifted. */
  lemma Quiet(p: Pool, item: Item)
    requires Edged(p) && item.id !in p.items
    requires forall q :: q in item.dependsOn ==> q in p.items && item.packageFpc <= p.items[q].descendantScore
    ensures Admit(p, item) == Insert(p, item)
  {
    Scores.InsertedRates(p, item);
    Scores.AdmitStore(p, item);
    NothingLifted(Insert(p, item), item.id);
  }

  lemma FreshCoins(p: Pool, c: Candidate)
    requires Elems(c.removals) !! p.coinIndex.Keys
    ensures Conflicts(p, c) == []
  {
    ConflictIdsFacts(p.coinIndex, c.removals, Shared(p.dedup.index, c.dedupKeys));
    ElemsEmpty(Conflicts(p, c));
    assert forall x :: x in c.removals ==> x in Elems(c.removals);
  }

  // ── Newcomers without parents ──

  lemma RootFacts(p: Pool, c: Candidate, v: Chainview)
    requires CoinsTrue(p) && Elems(c.removals) <= v.onChain && c.dedupKeys == []
    ensures ParentsOf(p, c, v) == {} && Missing(p.mempoolCoins, v.onChain, c.removals).None?
    ensures Built(p, p, c, v) == Root(c, v.height)
  {
    MissingIff(p.mempoolCoins, v.onChain, c.removals);
    assert forall x :: x in c.removals ==> x in Elems(c.removals);
    assert ParentsOf(p, c, v) == {};
  }

  lemma EntersAlone(p: Pool, c: Candidate, v: Chainview, cfg: Config)
    requires Set(p, cfg) && v.policyAccepts && c.dedupKeys == [] && c.id !in p.items
    requires Elems(c.removals) <= v.onChain && Elems(c.removals) !! p.coinIndex.Keys
    requires SatAdd(p.totalSpends, c.numSpends) <= cfg.maxSpends && Fits(p, c.Cost(), cfg.maxTotalCost)
    ensures Commits(p, c, v, cfg, NOBODY, Insert(p, Root(c, v.height)), None)
    ensures Set(Insert(p, Root(c, v.height)), cfg)
  {
    RootFacts(p, c, v);
    FreshCoins(p, c);
    ReachLeast(p.dependencies, {}, {}, {});
    Enters(p, c, v, cfg);
    Quiet(p, Root(c, v.height));
  }

  /** What one more item without parents adds to the indexes. */
  ghost predicate Joined(p: Pool, c: Candidate, r: Pool) {
    && r.coinIndex == p.coinIndex + Owned(c.removals, c.id) && r.mempoolCoins == p.mempoolCoins + Owned(c.additions, c.id)
    && r.dedup == p.dedup && r.totalCost == SatAdd(p.totalCost, c.Cost()) && r.totalSpends == SatAdd(p.totalSpends, c.numSpends)
  }

  lemma RootJoins(p: Pool, c: Candidate, height: U64)
    requires c.dedupKeys == []
    ensures var r := Insert(p, Root(c, height));
      && Joined(p, c, r) && r.items == p.items[c.id := Root(c, height)]
      && r.dependencies == p.dependencies && r.dependents == p.dependents
  {
    assert JoinChildren(p.dependents, {}, c.id) == p.dependents;
  }

  /** The indexes, edges and totals of a small pool without dedup. */
  ghost predicate Looks(p: Pool, spent: map<CoinId, Id>, made: map<CoinId, Id>, parents: Edges, children: Edges, cost: nat, spends: nat) {
    && p.coinIndex == spent && p.mempoolCoins == made && p.dependencies == parents && p.dependents == children
    && p.totalCost == cost && p.totalSpends == spends && p.dedup == Dedup(map[], map[])
  }

  lemma OwnedOne(x: CoinId, id: Id)
    ensures Owned([x], id) == map[x := id] && Owned([], id) == map[] && Elems([x]) == {x}
  {
    assert x in [x];
  }

  lemma AlikeItem(a: map<Id, Item>, b: map<Id, Item>, x: Id)
    requires Alike(a, b) && x in b
    ensures x in a && a[x].SameButScore(b[x])
  {
  }

  /** A coin map with the newcomer's only addition, if it has one. */
  function Plus(made: map<CoinId, Id>, additions: seq<CoinId>, id: Id): map<CoinId, Id> {
    if additions == [] then made else made[additions[0] := id]
  }

  lemma PlusOwned(made: map<CoinId, Id>, additions: seq<CoinId>, id: Id)
    requires |additions| <= 1
    ensures made + Owned(additions, id) == Plus(made, additions, id)
  {
    if additions != [] {
      assert additions == [additions[0]];
      OwnedOne(additions[0], id);
    }
  }

  lemma JoinedLooks(p: Pool, c: Candidate, r: Pool, x: CoinId, spent: map<CoinId, Id>, made: map<CoinId, Id>, cost: nat, spends: nat)
    requires Looks(p, spent, made, p.dependencies, p.dependents, cost, spends) && Joined(p, c, r)
    requires c.removals == [x] && |c.additions| <= 1 && c.numSpends == 1 && cost + c.Cost() <= U64_MAX && spends < U64_MAX
    ensures Looks(r, spent[x := c.id], Plus(made, c.additions, c.id), r.dependencies, r.dependents, cost + c.Cost(), spends + 1)
  {
    OwnedOne(x, c.id);
    PlusOwned(made, c.additions, c.id);
  }

  lemma RootReached(p: Pool, c: Candidate, v: Chainview, cfg: Config)
    requires Reached(p, cfg) && v.policyAccepts && c.dedupKeys == [] && c.id !in p.items
    requires Elems(c.removals) <= v.onChain && Elems(c.removals) !! p.coinIndex.Keys
    requires SatAdd(p.totalSpends, c.numSpends) <= cfg.maxSpends && Fits(p, c.Cost(), cfg.maxTotalCost)
    ensures Reached(Insert(p, Root(c, v.height)), cfg)
  {
    ReachedSet(p, cfg);
    EntersAlone(p, c, v, cfg);
    AnswerReached(p, c, v, cfg, NOBODY, Insert(p, Root(c, v.height)), None);
  }

  /** A newcomer that spends one coin on chain, and the pool after it. */
  lemma Alone(p: Pool, c: Candidate, v: Chainview, cfg: Config, x: CoinId,
              spent: map<CoinId, Id>, made: map<CoinId, Id>, cost: nat, spends: nat) returns (r: Pool)
    requires Reached(p, cfg) && Looks(p, spent, made, p.dependencies, p.dependents, cost, spends)
    requires v.policyAccepts && c.dedupKeys == [] && c.id !in p.items
    requires c.removals == [x] && |c.additions| <= 1 && c.numSpends == 1 && x in v.onChain && x !in spent
    requires spends < cfg.maxSpends && cost + c.Cost() <= cfg.maxTotalCost
    ensures Reached(r, cfg) && r.items == p.items[c.id := Root(c, v.height)]
    ensures Looks(r, spent[x := c.id], Plus(made, c.additions, c.id), p.dependencies, p.dependents, cost + c.Cost(), spends + 1)
    ensures r.singletonSpends == ChainJoin(p.singletonSpends, c.launcher, c.id)
  {
    r := Insert(p, Root(c, v.height));
    OwnedOne(x, c.id);
    RootReached(p, c, v, cfg);
    RootJoins(p, c, v.height);
    JoinedLooks(p, c, r, x, spent, made, cost, spends);
  }

  // ── Newcomers under parents ──

  lemma ChildPasses(p: Pool, c: Candidate, v: Chainview, cfg: Config)
    requires Sound(p) && NoOrphans(p.items) && c.id !in p.items && Elems(c.removals) !! p.coinIndex.Keys
    requires Missing(p.mempoolCoins, v.onChain, c.removals).None? && SatAdd(p.totalSpends, c.numSpends) <= cfg.maxSpends
    requires DepthOver(DepthOf(p.items), ParentsOf(p, c, v)) <= cfg.maxDepth
    ensures Refusal(p, c, v, cfg).None? && Conflicts(p, c) == []
  {
    FreshCoins(p, c);
    Families.CycleIffLostParent(p, c, v);
  }

  lemma OneDepth(items: map<Id, Item>, q: Id)
    requires q in items
    ensures DepthOver(DepthOf(items), {q}) == 1 + items[q].depth
  {
    assert Depths(DepthOf(items), {q}) == {items[q].depth};
    MaxUnique({items[q].depth}, items[q].depth);
  }

  lemma OneSum(m: map<Id, nat>, q: Id)
    requires q in m
    ensures Sum(m, {q}) == m[q]
  {
    SumPull(m, {q}, q);
    assert {q} - {q} == {};
  }

  lemma TwoSum(m: map<Id, nat>, a: Id, b: Id)
    requires a in m && b in m && a != b
    ensures Sum(m, {a, b}) == m[a] + m[b]
  {
    SumPull(m, {a, b}, a);
    assert {a, b} - {a} == {b};
    OneSum(m, b);
  }

  /** A newcomer that spends one coin, just created by `q`. */
  ghost predicate SpendsFrom(p: Pool, c: Candidate, v: Chainview, q: Id) {
    |c.removals| == 1 && c.removals[0] !in v.onChain && c.removals[0] in p.mempoolCoins && p.mempoolCoins[c.removals[0]] == q && q in p.items
  }

  lemma OneCreator(p: Pool, c: Candidate, v: Chainview, q: Id)
    requires SpendsFrom(p, c, v, q)
    ensures ParentsOf(p, c, v) == {q} && Missing(p.mempoolCoins, v.onChain, c.removals).None?
  {
    var x := c.removals[0];
    assert c.removals == [x] && x in c.removals;
    MissingIff(p.mempoolCoins, v.onChain, c.removals);
  }

  lemma OnePackage(own: U64, pack: map<Id, nat>, q: Id)
    requires q in pack && pack[q] <= U64_MAX
    ensures PackageValue(own, pack, {q}) == SatAdd(own, pack[q])
  {
    OneSum(pack, q);
  }

  lemma OneParent(p: Pool, c: Candidate, v: Chainview, q: Id)
    requires CoinsTrue(p) && Keyed(p.items) && SpendsFrom(p, c, v, q) && c.dedupKeys == []
    ensures ParentsOf(p, c, v) == {q} && Missing(p.mempoolCoins, v.onChain, c.removals).None?
    ensures Built(p, p, c, v) == ChildOf(c, v.height, p.items[q])
  {
    OneCreator(p, c, v, q);
    OneDepth(p.items, q);
    OnePackage(c.fee, PackageFees(p.items), q);
    OnePackage(c.Cost(), PackageCosts(p.items), q);
    assert p.items[q].id == q;
  }

  lemma EntersUnder(p: Pool, c: Candidate, v: Chainview, cfg: Config, q: Id)
    requires Set(p, cfg) && v.policyAccepts && c.dedupKeys == [] && c.id !in p.items && NoOrphans(p.items)
    requires SpendsFrom(p, c, v, q) && Elems(c.removals) !! p.coinIndex.Keys && p.items[q].depth < cfg.maxDepth
    requires SatAdd(p.totalSpends, c.numSpends) <= cfg.maxSpends && Fits(p, c.Cost(), cfg.maxTotalCost)
    ensures Commits(p, c, v, cfg, NOBODY, Admit(p, ChildOf(c, v.height, p.items[q])), None)
    ensures Set(Admit(p, ChildOf(c, v.height, p.items[q])), cfg)
  {
    OneParent(p, c, v, q);
    OneDepth(p.items, q);
    ChildPasses(p, c, v, cfg);
    Enters(p, c, v, cfg);
  }

  lemma AdmitJoins(p: Pool, item: Item, c: Candidate)
    requires item.id == c.id && item.removals == c.removals && item.additions == c.additions && item.dedupKeys == [] == c.dedupKeys
    requires item.virtualCost == c.Cost() && item.numSpends == c.numSpends
    ensures Joined(p, c, Admit(p, item))
  {
  }

  lemma ChildReached(p: Pool, c: Candidate, v: Chainview, cfg: Config, q: Id)
    requires Reached(p, cfg) && v.policyAccepts && c.dedupKeys == [] && c.id !in p.items && NoOrphans(p.items)
    requires SpendsFrom(p, c, v, q) && Elems(c.removals) !! p.coinIndex.Keys && p.items[q].depth < cfg.maxDepth
    requires SatAdd(p.totalSpends, c.numSpends) <= cfg.maxSpends && Fits(p, c.Cost(), cfg.maxTotalCost)
    ensures Answers(p, c, v, cfg, NOBODY, Admit(p, ChildOf(c, v.height, p.items[q])), None)
    ensures Reached(Admit(p, ChildOf(c, v.height, p.items[q])), cfg) && p.items[q].id == q
  {
    ReachedSet(p, cfg);
    EntersUnder(p, c, v, cfg, q);
    AnswerReached(p, c, v, cfg, NOBODY, Admit(p, ChildOf(c, v.height, p.items[q])), None);
  }

  /** A newcomer that spends one coin created by `q`, and the pool after it; the score of `q` may have risen. */
  lemma Under(p: Pool, c: Candidate, v: Chainview, cfg: Config, q: Id, x: CoinId,
              spent: map<CoinId, Id>, made: map<CoinId, Id>, cost: nat, spends: nat) returns (r: Pool)
    requires Reached(p, cfg) && Looks(p, spent, made, p.dependencies, p.dependents, cost, spends)
    requires v.policyAccepts && c.dedupKeys == [] && c.id !in p.items && NoOrphans(p.items)
    requires c.removals == [x] && |c.additions| <= 1 && c.numSpends == 1 && x !in v.onChain && x in made && made[x] == q && x !in spent
    requires q in p.items && p.items[q].depth < cfg.maxDepth && spends < cfg.maxSpends && cost + c.Cost() <= cfg.maxTotalCost
    ensures var item := ChildOf(c, v.height, p.items[q]);
      && Reached(r, cfg) && r == Admit(p, item) && Alike(r.items, p.items[c.id := item]) && item.dependsOn == {q}
    ensures Looks(r, spent[x := c.id], Plus(made, c.additions, c.id),
                  JoinParents(p.dependencies, {q}, c.id), JoinChildren(p.dependents, {q}, c.id), cost + c.Cost(), spends + 1)
  {
    var item := ChildOf(c, v.height, p.items[q]);
    r := Admit(p, item);
    OwnedOne(x, c.id);
    ChildReached(p, c, v, cfg, q);
    AdmitItems(p, item);
    ChildLooks(p, c, v.height, q, x, spent, made, cost, spends);
  }

  lemma ChildLooks(p: Pool, c: Candidate, height: U64, q: Id, x: CoinId,
                   spent: map<CoinId, Id>, made: map<CoinId, Id>, cost: nat, spends: nat)
    requires q in p.items && p.items[q].id == q && Looks(p, spent, made, p.dependencies, p.dependents, cost, spends)
    requires c.dedupKeys == [] && c.removals == [x] && |c.additions| <= 1 && c.numSpends == 1
    requires cost + c.Cost() <= U64_MAX && spends < U64_MAX
    ensures ChildOf(c, height, p.items[q]).dependsOn == {q}
    ensures Looks(Admit(p, ChildOf(c, height, p.items[q])), spent[x := c.id], Plus(made, c.additions, c.id),
                  JoinParents(p.dependencies, {q}, c.id), JoinChildren(p.dependents, {q}, c.id), cost + c.Cost(), spends + 1)
  {
    var item := ChildOf(c, height, p.items[q]);
    AdmitGraph(p, item);
    AdmitJoins(p, item, c);
    JoinedLooks(p, c, Admit(p, item), x, spent, made, cost, spends);
  }

  /** The first edge of a graph. */
  lemma FirstEdge(q: Id, c: Id)
    ensures JoinParents(map[], {q}, c) == map[c := {q}] && JoinChildren(map[], {q}, c) == map[q := {c}]
  {
    assert Succ(map[], c) + {q} == {q} && Succ(map[], q) + {c} == {c};
  }

  /** Under any number of parents. */
  lemma Among(p: Pool, c: Candidate, v: Chainview, cfg: Config)
    requires Set(p, cfg) && v.policyAccepts && c.dedupKeys == [] && c.id !in p.items && NoOrphans(p.items)
    requires Missing(p.mempoolCoins, v.onChain, c.removals).None? && Elems(c.removals) !! p.coinIndex.Keys
    requires DepthOver(DepthOf(p.items), ParentsOf(p, c, v)) <= cfg.maxDepth
    requires SatAdd(p.totalSpends, c.numSpends) <= cfg.maxSpends && Fits(p, c.Cost(), cfg.maxTotalCost)
    ensures Commits(p, c, v, cfg, NOBODY, Admit(p, Built(p, p, c, v)), None)
  {
    ChildPasses(p, c, v, cfg);
    Enters(p, c, v, cfg);
  }

  lemma AmongReached(p: Pool, c: Candidate, v: Chainview, cfg: Config)
    requires Reached(p, cfg) && CoinsTrue(p) && v.policyAccepts && c.dedupKeys == [] && c.id !in p.items && NoOrphans(p.items)
    requires Missing(p.mempoolCoins, v.onChain, c.removals).None? && Elems(c.removals) !! p.coinIndex.Keys
    requires DepthOver(DepthOf(p.items), ParentsOf(p, c, v)) <= cfg.maxDepth
    requires SatAdd(p.totalSpends, c.numSpends) <= cfg.maxSpends && Fits(p, c.Cost(), cfg.maxTotalCost)
    ensures Reached(Admit(p, Built(p, p, c, v)), cfg)
  {
    ReachedSet(p, cfg);
    Among(p, c, v, cfg);
    AnswerReached(p, c, v, cfg, NOBODY, Admit(p, Built(p, p, c, v)), None);
  }

  // ── Newcomers with conflicts ──

  lemma PassesWhen(p: Pool, c: Candidate, v: Chainview, cfg: Config, parents: set<Id>)
    requires CoinsTrue(p) && parents == ParentsOf(p, c, v) && Missing(p.mempoolCoins, v.onChain, c.removals).None?
    requires SatAdd(p.totalSpends, c.numSpends) <= cfg.maxSpends && DepthOver(DepthOf(p.items), parents) <= cfg.maxDepth
    requires c.id !in Reach(p.dependencies, {}, parents) && Objection(p, c, cfg).None?
    ensures Refusal(p, c, v, cfg) == None
  {
  }

  lemma NoObjectionWhen(p: Pool, c: Candidate, cfg: Config, ids: seq<Id>, s: set<Id>)
    requires CoinsTrue(p) && Conflicts(p, c) == ids && Elems(ids) == s <= p.items.Keys
    requires Verdict(p.items, s, c.removals, c.fee, c.Rate(), cfg.minBump).None?
    ensures Objection(p, c, cfg).None?
  {
  }
}
