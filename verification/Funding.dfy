/**
 * The coins behind the pool: every coin an active item spends is on chain or created by one of its
 * active parents, so a selected block can be executed in the order in which it is listed
 * (src/mempool/submit.rs:605-645, src/mempool/lifecycle.rs:274-349, src/mempool/selection.rs:38-107).
 */
module Funding {
  import opened Prelude
  import opened Items
  import opened Graph
  import opened PoolState
  import opened PoolInvariants
  import opened Cascades
  import opened Rbf
  import opened Admission
  import opened Admitted
  import opened Survival
  import opened Sparing
  import opened Families
  import opened Lifecycle
  import opened Persistence
  import opened Reinsertions
  import opened Packing
  import opened BlockSelection
  import opened Runs

  ghost predicate Funded(p: Pool, chain: set<CoinId>) {
    forall b, c :: b in p.items && c in p.items[b].removals && c !in chain ==> MadeByParent(p.items, b, c)
  }

  ghost predicate MadeByParent(items: map<Id, Item>, b: Id, c: CoinId)
    requires b in items
  {
    exists q :: q in items[b].dependsOn && q in items && c in items[q].additions
  }

  // ── Removals ──

  /** Survivors keep their parents, and the coins they counted on are still there. */
  lemma RemovalFunded(p: Pool, gone: seq<Id>, chain: set<CoinId>, after: set<CoinId>)
    requires Funded(p, chain) && NoOrphans(RemoveSeq(p, gone).items)
    requires forall b, c :: b in RemoveSeq(p, gone).items && c in RemoveSeq(p, gone).items[b].removals && c in chain ==> c in after
    ensures Funded(RemoveSeq(p, gone), after)
  {
    var r := RemoveSeq(p, gone).items;
    RemoveSeqItems(p, gone);
    forall b, c | b in r && c in r[b].removals && c !in after ensures MadeByParent(r, b, c) {
      AlikeFields(r, p.items - Elems(gone), b);
      assert MadeByParent(p.items, b, c);
      var q :| q in p.items[b].dependsOn && q in p.items && c in p.items[q].additions;
      AlikeFields(r, p.items - Elems(gone), q);
    }
  }

  /** A block leaves nobody who spends one of its coins. */
  lemma BlockFunded(p: Pool, height: U64, timestamp: U64, spent: seq<CoinId>, gone: seq<Id>, events: seq<Event>,
                    chain: set<CoinId>, after: set<CoinId>)
    requires Edged(p) && Family(p) && CoinsFull(p) && Funded(p, chain)
    requires Settles(p, height, timestamp, spent, gone, events) && chain - Elems(spent) <= after
    ensures Funded(RemoveSeq(p, gone), after)
  {
    ReachCovers(p.dependents, {}, Owners(p, spent) + Outdated(p.items, height, timestamp));
    BlockSettled(p, spent, height, timestamp, gone);
    ClosedNoOrphans(p, gone);
    RemovalFunded(p, gone, chain, after);
  }

  lemma SweepFunded(p: Pool, gone: seq<Id>, chain: set<CoinId>, after: set<CoinId>)
    requires Edged(p) && Family(p) && Funded(p, chain) && Swept(p, gone) && chain <= after
    ensures Funded(RemoveSeq(p, gone), after)
  {
    ClosedNoOrphans(p, gone);
    RemovalFunded(p, gone, chain, after);
  }

  // ── Commits ──

  /** What resolution found is still there: each coin is on chain, or its creator is an active parent. */
  lemma NewcomerFunded(p: Pool, c: Candidate, v: Chainview, gone: seq<Id>, coin: CoinId)
    requires CoinsTrue(p) && Missing(p.mempoolCoins, v.onChain, c.removals).None?
    requires ParentsOf(p, c, v) !! Elems(gone) && coin in c.removals && coin !in v.onChain
    ensures exists q :: q in ParentsOf(p, c, v) && q in RemoveSeq(p, gone).items && coin in RemoveSeq(p, gone).items[q].additions
  {
    MissingIff(p.mempoolCoins, v.onChain, c.removals);
    assert !Unknown(p.mempoolCoins, v.onChain, coin);
    var q := p.mempoolCoins[coin];
    assert q in Additions(p.items) && coin in Additions(p.items)[q];
    RemoveSeqItems(p, gone);
    AlikeFields(RemoveSeq(p, gone).items, p.items - Elems(gone), q);
  }

  lemma AdmitFunded(p: Pool, item: Item, chain: set<CoinId>)
    requires Funded(p, chain) && item.id !in p.items
    requires forall c :: c in item.removals && c !in chain ==>
      exists q :: q in item.dependsOn && q in p.items && c in p.items[q].additions
    ensures Funded(Admit(p, item), chain)
  {
    var r, all := Admit(p, item).items, p.items[item.id := item];
    AdmitItems(p, item);
    forall b, c | b in r && c in r[b].removals && c !in chain ensures MadeByParent(r, b, c) {
      AlikeFields(r, all, b);
      assert b != item.id ==> MadeByParent(p.items, b, c);
      var q :| q in all[b].dependsOn && q in p.items && c in p.items[q].additions;
      AlikeFields(r, all, q);
    }
  }

  lemma AcceptedFunded(p: Pool, c: Candidate, v: Chainview, cfg: Config, d: Displaced, chain: set<CoinId>)
    requires Sound(p) && Replaces(p, c, v, cfg, d, true) && Refusal(p, c, v, cfg).None? && c.id !in p.items
    requires v.onChain <= chain && ParentsOf(p, c, v) !! Elems(Gone(d)) && Funded(RemoveSeq(p, Gone(d)), chain)
    ensures Funded(Admit(RemoveSeq(p, Gone(d)), Built(p, RemoveSeq(p, d.replaced), c, v)), chain)
  {
    var r0, item := RemoveSeq(p, Gone(d)), Built(p, RemoveSeq(p, d.replaced), c, v);
    BuiltFields(p, RemoveSeq(p, d.replaced), c, v);
    RemoveSeqKeys(p, Gone(d));
    forall coin | coin in item.removals && coin !in chain
      ensures exists q :: q in item.dependsOn && q in r0.items && coin in r0.items[q].additions
    {
      NewcomerFunded(p, c, v, Gone(d), coin);
    }
    AdmitFunded(r0, item, chain);
  }

  lemma CommitFunded(p: Pool, c: Candidate, v: Chainview, cfg: Config, d: Displaced, r: Pool, answer: Option<MempoolError>,
                     chain: set<CoinId>)
    requires Sound(p) && Family(p) && Funded(p, chain) && Commits(p, c, v, cfg, d, r, answer) && Detectable(cfg)
    requires v.onChain <= chain && (TurnedAway(p, c, v, cfg) || KinSpared(p, c, v, cfg))
    ensures Funded(r, chain)
  {
    CommitCases(p, c, v, cfg, d, r, answer);
    if r != p {
      SurvivorsNoOrphans(p, c, v, cfg, d, answer != Some(MempoolFull));
      RemovalFunded(p, Gone(d), chain, chain);
      if answer.None? {
        EntersIff(p, c, v, cfg, d, true);
        OwnParentsStay(p, c, v, cfg, d, true);
        AcceptedFunded(p, c, v, cfg, d, chain);
      }
    }
  }

  // ── Runs beside a chain ──

  /**
   * The chain moves on beside the pool: submissions are told of coins that exist, a block takes away
   * what it spends, and a snapshot is put back where the coins it was taken with still exist.
   */
  ghost predicate ChainStep(chains: seq<set<CoinId>>, i: nat, act: Act)
    requires i + 1 < |chains|
  {
    match act
    case Submission(_, v, _, _) => v.onChain <= chains[i] <= chains[i + 1]
    case Block(_, _, spent, _, _) => chains[i] - Elems(spent) <= chains[i + 1]
    case Reinsertion(k, _) => k < |chains| && chains[k] + chains[i] <= chains[i + 1]
    case _ => chains[i] <= chains[i + 1]
  }

  ghost predicate Truthful(chains: seq<set<CoinId>>, acts: seq<Act>) {
    && |chains| == |acts| + 1
    && forall i :: 0 <= i < |acts| ==> ChainStep(chains, i, acts[i])
  }

  lemma MoreFunded(p: Pool, chain: set<CoinId>, after: set<CoinId>)
    requires Funded(p, chain) && chain <= after
    ensures Funded(p, after)
  {
  }

  lemma BothFunded(a: Pool, b: Pool, r: Pool, chain: set<CoinId>)
    requires Funded(a, chain) && Funded(b, chain) && a.items.Keys !! b.items.Keys && r.items == a.items + b.items
    ensures Funded(r, chain)
  {
    forall x, c | x in r.items && c in r.items[x].removals && c !in chain ensures MadeByParent(r.items, x, c) {
      var own := if x in b.items then b else a;
      assert MadeByParent(own.items, x, c);
      var q :| q in own.items[x].dependsOn && q in own.items && c in own.items[q].additions;
      assert r.items[q] == own.items[q];
    }
  }

  lemma ReinsertionFunded(p: Pool, s: Pool, xs: seq<Item>, cfg: Config, chain: set<CoinId>, before: set<CoinId>, after: set<CoinId>)
    requires Listing(s.items, xs) && Reinsertable(p, s.items, cfg) && Funded(p, chain) && Funded(s, before) && chain + before <= after
    ensures Funded(InsertAll(p, xs), after)
  {
    Reinserted(p, s.items, xs);
    MoreFunded(p, chain, after);
    MoreFunded(s, before, after);
    BothFunded(p, s, InsertAll(p, xs), after);
  }

  lemma FundedStep(states: seq<Pool>, acts: seq<Act>, chains: seq<set<CoinId>>, cfg: Config, k: nat)
    requires Run(states, acts, cfg) && k < |acts| && Source(acts, k) <= k && Timely(states, acts, cfg, k)
    requires |chains| == |states| && ChainStep(chains, k, acts[k]) && Considerate(states[k], acts[k], cfg)
    requires Sound(states[k]) && Family(states[k]) && CoinsFull(states[k])
    requires Funded(states[k], chains[k]) && Funded(states[Source(acts, k)], chains[Source(acts, k)])
    ensures Funded(states[k + 1], chains[k + 1])
  {
    var p := states[k];
    assert Step(states, cfg, k, acts[k]);
    match acts[k]
    case Submission(c, v, d, answer) =>
      CommitFunded(p, c, v, cfg, d, states[k + 1], answer, chains[k]);
      MoreFunded(states[k + 1], chains[k], chains[k + 1]);
    case Block(height, timestamp, spent, gone, events) =>
      BlockFunded(p, height, timestamp, spent, gone, events, chains[k], chains[k + 1]);
    case Percentage(gone, _) => SweepFunded(p, gone, chains[k], chains[k + 1]);
    case Removal(id) => LeafFunded(p, id, chains[k], chains[k + 1]);
    case Reset =>
    case Reinsertion(s, xs) => ReinsertionFunded(p, states[s], xs, cfg, chains[k], chains[s], chains[k + 1]);
  }

  lemma LeafFunded(p: Pool, id: Id, chain: set<CoinId>, after: set<CoinId>)
    requires Edged(p) && Family(p) && Funded(p, chain) && Succ(p.dependents, id) == {} && chain <= after
    ensures Funded(Remove(p, id), after)
  {
    if id in p.items {
      RemoveIsSeq(p, id);
      LeafSwept(p, id);
      SweepFunded(p, [id], chain, after);
    }
  }

  /** A timely run of considerate acts with dedup off and no rivals, beside a chain its records are true to. */
  ghost predicate Beside(states: seq<Pool>, acts: seq<Act>, chains: seq<set<CoinId>>, cfg: Config) {
    && ConsiderateRun(states, acts, cfg) && AllUnrivalled(states, acts) && AllPlain(acts)
    && Truthful(chains, acts)
  }

  lemma FundedNext(states: seq<Pool>, acts: seq<Act>, chains: seq<set<CoinId>>, cfg: Config, k: nat)
    requires Beside(states, acts, chains, cfg) && k < |acts| && Source(acts, k) <= k
    requires Funded(states[k], chains[k]) && Funded(states[Source(acts, k)], chains[Source(acts, k)])
    ensures Funded(states[k + 1], chains[k + 1])
  {
    assert Timely(states, acts, cfg, k) && ChainStep(chains, k, acts[k]) && Considerate(states[k], acts[k], cfg);
    EveryStateSafe(states, acts, cfg, k);
    EveryStateFamily(states, acts, cfg, k);
    EveryIndexFull(states, acts, cfg, k);
    FundedStep(states, acts, chains, cfg, k);
  }

  lemma SourceOf(states: seq<Pool>, acts: seq<Act>, chains: seq<set<CoinId>>, cfg: Config, k: nat)
    requires Beside(states, acts, chains, cfg) && k < |acts|
    ensures |states| == |chains| == |acts| + 1 && Source(acts, k) <= k
  {
    SourceBefore(states, acts, cfg, k);
  }

  /** In every state, whatever an active item spends exists already or is created by one of its active parents. */
  lemma {:induction false} EveryItemFunded(states: seq<Pool>, acts: seq<Act>, chains: seq<set<CoinId>>, cfg: Config, i: nat)
    requires Beside(states, acts, chains, cfg) && i < |states|
    ensures i < |chains| && Funded(states[i], chains[i])
  {
    if i > 0 {
      var k: nat :| k + 1 == i;
      SourceOf(states, acts, chains, cfg, k);
      EveryItemFunded(states, acts, chains, cfg, k);
      EveryItemFunded(states, acts, chains, cfg, Source(acts, k));
      FundedNext(states, acts, chains, cfg, k);
    }
  }

  // ── Executing a block ──

  ghost function Takes(items: map<Id, Item>, b: Id): set<CoinId> { if b in items then Elems(items[b].removals) else {} }

  ghost function Makes(items: map<Id, Item>, b: Id): set<CoinId> { if b in items then Elems(items[b].additions) else {} }

  /** The coins that exist once the listed items have been executed in order. */
  ghost function CoinsAfter(chain: set<CoinId>, items: map<Id, Item>, xs: seq<Id>): set<CoinId> {
    if xs == [] then chain else
      CoinsAfter(chain, items, xs[..|xs| - 1]) - Takes(items, xs[|xs| - 1]) + Makes(items, xs[|xs| - 1])
  }

  /** Each item in turn finds every coin it spends. */
  ghost predicate Executes(chain: set<CoinId>, items: map<Id, Item>, xs: seq<Id>) {
    forall j :: 0 <= j < |xs| ==> Takes(items, xs[j]) <= CoinsAfter(chain, items, xs[..j])
  }

  /** A coin that exists or has been created, and that nobody has spent, is there. */
  lemma {:induction false} StillThere(chain: set<CoinId>, items: map<Id, Item>, xs: seq<Id>, c: CoinId)
    requires c in chain || exists b :: b in xs && c in Makes(items, b)
    requires forall b :: b in xs ==> c !in Takes(items, b)
    ensures c in CoinsAfter(chain, items, xs)
  {
    if xs != [] {
      var rest, last := xs[..|xs| - 1], xs[|xs| - 1];
      assert xs == rest + [last];
      if c !in Makes(items, last) { StillThere(chain, items, rest, c); }
    }
  }

  lemma CoinReady(p: Pool, chain: set<CoinId>, xs: seq<Id>, j: nat, c: CoinId)
    requires Edged(p) && Funded(p, chain) && CoinsOnceIn(p.items, xs) && j < |xs| && c in Takes(p.items, xs[j])
    requires Succ(p.dependencies, xs[j]) <= Elems(xs[..j]) && Elems(xs) <= p.items.Keys
    ensures c in CoinsAfter(chain, p.items, xs[..j])
  {
    forall b | b in xs[..j] ensures c !in Takes(p.items, b) {
      var k :| 0 <= k < j && xs[..j][k] == b;
      assert Elems(p.items[xs[k]].removals) !! Elems(p.items[xs[j]].removals) by { assert xs[k] in Elems(xs); }
    }
    if c !in chain {
      assert MadeByParent(p.items, xs[j], c);
      var q :| q in p.items[xs[j]].dependsOn && q in p.items && c in p.items[q].additions;
      SuccDependencies(p, xs[j]);
      assert q in xs[..j] && c in Makes(p.items, q);
    }
    StillThere(chain, p.items, xs[..j], c);
  }

  lemma BlockExecutes(p: Pool, chain: set<CoinId>, xs: seq<Id>)
    requires Edged(p) && Funded(p, chain) && CoinsOnceIn(p.items, xs) && Elems(xs) <= p.items.Keys
    requires forall j :: 0 <= j < |xs| ==> Ancestors(p.dependencies, xs[j]) <= Elems(xs[..j])
    ensures Executes(chain, p.items, xs)
  {
    forall j, c | 0 <= j < |xs| && c in Takes(p.items, xs[j]) ensures c in CoinsAfter(chain, p.items, xs[..j]) {
      ReachCovers(p.dependencies, {}, Succ(p.dependencies, xs[j]));
      CoinReady(p, chain, xs, j, c);
    }
  }

  /**
   * End to end: beside any chain the records are true to, with dedup off, considerate acts and closed
   * chains, every block the selector returns in any reachable state can be executed item by item.
   */
  lemma BlocksExecuteEver(states: seq<Pool>, acts: seq<Act>, chains: seq<set<CoinId>>, cfg: Config, i: nat,
                          maxCost: U64, height: U64, timestamp: U64, xs: seq<Id>)
    requires Beside(states, acts, chains, cfg) && i < |states|
    requires IsBlock(TemplateOf(states[i], maxCost, cfg.maxSpends, height, timestamp), xs)
    requires ChainClosed(TemplateOf(states[i], maxCost, cfg.maxSpends, height, timestamp))
    ensures Executes(chains[i], states[i].items, xs)
  {
    PlainBlocks(states, acts, cfg, i, maxCost, height, timestamp);
    BlocksEver(states, acts, cfg, i, maxCost, height, timestamp, xs);
    EveryStateSafe(states, acts, cfg, i);
    EveryItemFunded(states, acts, chains, cfg, i);
    BlockExecutes(states[i], chains[i], xs);
  }
}
