/**
 * Whole runs of the mempool's active pool: any interleaving of commits, blocks, evictions, plain
 * removals, resets and re-insertions of a snapshot, each of which holds the write lock from start to
 * end. A restoration is a reset and, later, a re-insertion: anything may happen in between.
 */
module Runs {
  import opened Prelude
  import opened Items
  import opened Graph
  import opened Queues
  import opened PoolState
  import opened PoolInvariants
  import opened Cascades
  import opened Scores
  import opened Rbf
  import opened Admission
  import opened Admitted
  import opened Survival
  import opened Sparing
  import opened Families
  import opened Lifecycle
  import opened Persistence
  import opened Reinsertions
  import opened Packing
  import opened BlockSelection
  import opened Strategies
  import opened Sums
  import opened Timelocks

  /** One locked section, together with the choices the hash maps made in it. */
  datatype Act =
    | Submission(c: Candidate, v: Chainview, d: Displaced, answer: Option<MempoolError>)
    | Block(height: U64, timestamp: U64, spent: seq<CoinId>, gone: seq<Id>, events: seq<Event>)
    | Percentage(gone: seq<Id>, events: seq<Event>)
    | Removal(id: Id)
    | Reset
    | Reinsertion(snapshot: nat, listing: seq<Item>)

  /** The `i`-th act leads from the `i`-th state to the next; re-insertions name an earlier state. */
  ghost predicate Step(states: seq<Pool>, cfg: Config, i: nat, act: Act)
    requires i + 1 < |states|
  {
    var p, r := states[i], states[i + 1];
    match act
    case Submission(c, v, d, answer) => CoinsTrue(p) && NoDup(c.dedupKeys) && Commits(p, c, v, cfg, d, r, answer)
    case Block(height, timestamp, spent, gone, events) => Settles(p, height, timestamp, spent, gone, events) && r == RemoveSeq(p, gone)
    case Percentage(gone, events) => Phase(p, gone, events) && r == RemoveSeq(p, gone)
    case Removal(id) => r == Remove(p, id)
    case Reset => r == EMPTY
    case Reinsertion(k, xs) => k <= i && Listing(states[k].items, xs) && r == InsertAll(p, xs)
  }

  ghost predicate Run(states: seq<Pool>, acts: seq<Act>, cfg: Config) {
    && |states| == |acts| + 1 && states[0] == EMPTY && Detectable(cfg)
    && forall i :: 0 <= i < |acts| ==> Step(states, cfg, i, acts[i])
  }

  // ── What is known before a re-insertion ──

  /** The state whose snapshot an act puts back, if it does, and else the state before it. */
  ghost function Source(acts: seq<Act>, i: nat): nat
    requires i < |acts|
  {
    if acts[i].Reinsertion? then acts[i].snapshot else i
  }

  lemma SourceBefore(states: seq<Pool>, acts: seq<Act>, cfg: Config, i: nat)
    requires Run(states, acts, cfg) && i < |acts|
    ensures Source(acts, i) <= i && i + 1 < |states| && Step(states, cfg, i, acts[i])
  {
    assert Step(states, cfg, i, acts[i]);
  }

  /** No id of the snapshot has come back meanwhile, and there is room for all of it. */
  ghost predicate Timely(states: seq<Pool>, acts: seq<Act>, cfg: Config, i: nat)
    requires i < |acts| && |states| == |acts| + 1
  {
    acts[i].Reinsertion? ==> acts[i].snapshot < |states| && Reinsertable(states[i], states[acts[i].snapshot].items, cfg)
  }

  /** No coin of the snapshot has been claimed meanwhile. */
  ghost predicate Unrivalled(states: seq<Pool>, acts: seq<Act>, i: nat)
    requires i < |acts| && |states| == |acts| + 1
  {
    acts[i].Reinsertion? ==> acts[i].snapshot < |states| && CoinsUnclaimed(states[i], states[acts[i].snapshot].items)
  }

  ghost predicate AllTimely(states: seq<Pool>, acts: seq<Act>, cfg: Config) {
    |states| == |acts| + 1 && forall j :: 0 <= j < |acts| ==> Timely(states, acts, cfg, j)
  }

  ghost predicate AllUnrivalled(states: seq<Pool>, acts: seq<Act>) {
    |states| == |acts| + 1 && forall j :: 0 <= j < |acts| ==> Unrivalled(states, acts, j)
  }

  /** A run in which every re-insertion is timely. */
  ghost predicate TimelyRun(states: seq<Pool>, acts: seq<Act>, cfg: Config) {
    Run(states, acts, cfg) && AllTimely(states, acts, cfg)
  }

  /** Every re-insertion follows its reset at once. */
  predicate Unbroken(acts: seq<Act>) {
    forall j :: 0 <= j < |acts| && acts[j].Reinsertion? ==> j > 0 && acts[j - 1].Reset?
  }

  // ── Safety of every reachable state ──

  ghost predicate Safe(p: Pool, cfg: Config) { Sound(p) && WithinLimits(p, cfg) && Shallow(p, cfg) }

  lemma RemovalSafe(p: Pool, gone: seq<Id>, cfg: Config)
    requires Safe(p, cfg)
    ensures Safe(RemoveSeq(p, gone), cfg)
  {
    RemoveSeqSound(p, gone);
    RemoveSeqShrinks(p, gone);
    RemovalShallow(p, gone, cfg);
  }

  lemma RemoveIsSeq(p: Pool, id: Id)
    ensures Remove(p, id) == RemoveSeq(p, [id])
  {
    assert [id][..0] == [];
  }

  lemma ReinsertionSafe(p: Pool, s: Pool, xs: seq<Item>, cfg: Config)
    requires Safe(p, cfg) && Safe(s, cfg) && Listing(s.items, xs) && Reinsertable(p, s.items, cfg)
    ensures Safe(InsertAll(p, xs), cfg)
  {
    ReinsertionKeeps(p, s, xs, cfg);
    BothShallow(p, s, InsertAll(p, xs), cfg);
  }

  lemma BothShallow(p: Pool, s: Pool, r: Pool, cfg: Config)
    requires Shallow(p, cfg) && Shallow(s, cfg) && r.items == p.items + s.items
    ensures Shallow(r, cfg)
  {
  }

  lemma CommitSafe(p: Pool, c: Candidate, v: Chainview, cfg: Config, d: Displaced, r: Pool, answer: Option<MempoolError>)
    requires Safe(p, cfg) && Commits(p, c, v, cfg, d, r, answer) && NoDup(c.dedupKeys) && Detectable(cfg)
    ensures Safe(r, cfg)
  {
    CommitKeeps(p, c, v, cfg, d, r, answer);
    CommitShallow(p, c, v, cfg, d, r, answer);
  }

  lemma EmptySafe(cfg: Config)
    ensures Safe(EMPTY, cfg)
  {
    EmptySound();
  }

  lemma SafeStep(states: seq<Pool>, acts: seq<Act>, cfg: Config, k: nat)
    requires Run(states, acts, cfg) && k < |acts| && Source(acts, k) <= k
    requires Safe(states[k], cfg) && Safe(states[Source(acts, k)], cfg) && Timely(states, acts, cfg, k)
    ensures Safe(states[k + 1], cfg)
  {
    var p := states[k];
    assert Step(states, cfg, k, acts[k]);
    match acts[k]
    case Submission(c, v, d, answer) => CommitSafe(p, c, v, cfg, d, states[k + 1], answer);
    case Block(_, _, _, gone, _) => RemovalSafe(p, gone, cfg);
    case Percentage(gone, _) => RemovalSafe(p, gone, cfg);
    case Removal(id) => RemoveIsSeq(p, id); RemovalSafe(p, [id], cfg);
    case Reset => EmptySafe(cfg);
    case Reinsertion(s, xs) => ReinsertionSafe(p, states[s], xs, cfg);
  }

  /**
   * In every reachable state, dedup on or off, families broken or not, every index is true to the
   * items, every queue is in admission order, the cost and spend totals are the exact sums and
   * within their limits, the graph is acyclic and no item is deeper than allowed.
   */
  lemma {:induction false} EveryStateSafe(states: seq<Pool>, acts: seq<Act>, cfg: Config, i: nat)
    requires TimelyRun(states, acts, cfg) && i < |states|
    ensures Safe(states[i], cfg)
  {
    if i == 0 {
      EmptySafe(cfg);
    } else {
      var k: nat :| k + 1 == i;
      SourceBefore(states, acts, cfg, k);
      EveryStateSafe(states, acts, cfg, k);
      EveryStateSafe(states, acts, cfg, Source(acts, k));
      SafeStep(states, acts, cfg, k);
    }
  }

  lemma TimelyWhen(states: seq<Pool>, acts: seq<Act>, cfg: Config, k: nat)
    requires Run(states, acts, cfg) && k < |acts| && Source(acts, k) <= k
    requires Safe(states[k], cfg) && Safe(states[Source(acts, k)], cfg) && Safe(states[k + 1], cfg)
    ensures Timely(states, acts, cfg, k)
  {
    if acts[k].Reinsertion? {
      assert Step(states, cfg, k, acts[k]);
      ReinsertionSafeIff(states[k], states[acts[k].snapshot], acts[k].listing, cfg);
    }
  }

  /** A run is safe in every state if and only if every re-insertion is timely. */
  lemma SafeEverIff(states: seq<Pool>, acts: seq<Act>, cfg: Config)
    requires Run(states, acts, cfg)
    ensures (forall i :: 0 <= i < |states| ==> Safe(states[i], cfg)) <==> AllTimely(states, acts, cfg)
  {
    if AllTimely(states, acts, cfg) {
      forall i | 0 <= i < |states| ensures Safe(states[i], cfg) { EveryStateSafe(states, acts, cfg, i); }
    }
    if forall i :: 0 <= i < |states| ==> Safe(states[i], cfg) {
      forall k | 0 <= k < |acts| ensures Timely(states, acts, cfg, k) {
        SourceBefore(states, acts, cfg, k);
        TimelyWhen(states, acts, cfg, k);
      }
    }
  }

  lemma UnbrokenStep(states: seq<Pool>, acts: seq<Act>, cfg: Config, k: nat)
    requires Run(states, acts, cfg) && Unbroken(acts) && k < |acts| && Source(acts, k) <= k
    requires Safe(states[Source(acts, k)], cfg)
    ensures Timely(states, acts, cfg, k) && Unrivalled(states, acts, k)
  {
    if acts[k].Reinsertion? {
      assert Step(states, cfg, k - 1, acts[k - 1]);
      EmptyReinsertable(states[acts[k].snapshot], cfg);
    }
  }

  lemma {:induction false} UnbrokenSafe(states: seq<Pool>, acts: seq<Act>, cfg: Config, i: nat)
    requires Run(states, acts, cfg) && Unbroken(acts) && i < |states|
    ensures Safe(states[i], cfg)
  {
    if i == 0 {
      EmptySafe(cfg);
    } else {
      var k: nat :| k + 1 == i;
      SourceBefore(states, acts, cfg, k);
      UnbrokenSafe(states, acts, cfg, k);
      UnbrokenSafe(states, acts, cfg, Source(acts, k));
      UnbrokenStep(states, acts, cfg, k);
      SafeStep(states, acts, cfg, k);
    }
  }

  /** Restorations that nothing comes between need no condition. */
  lemma UnbrokenTimely(states: seq<Pool>, acts: seq<Act>, cfg: Config)
    requires Run(states, acts, cfg) && Unbroken(acts)
    ensures TimelyRun(states, acts, cfg) && AllUnrivalled(states, acts)
  {
    forall k | 0 <= k < |acts| ensures Timely(states, acts, cfg, k) && Unrivalled(states, acts, k) {
      SourceBefore(states, acts, cfg, k);
      UnbrokenSafe(states, acts, cfg, Source(acts, k));
      UnbrokenStep(states, acts, cfg, k);
    }
  }

  /** In no state does a walk along recorded parents come back to where it started. */
  lemma NoCyclesEver(states: seq<Pool>, acts: seq<Act>, cfg: Config, i: nat, xs: seq<Id>)
    requires TimelyRun(states, acts, cfg) && i < |states| && Walk(states[i].dependencies, xs) && |xs| > 1
    ensures xs[0] != xs[|xs| - 1]
  {
    EveryStateSafe(states, acts, cfg, i);
    NoCycle(states[i].dependencies, xs);
  }

  // ── The fee total ──

  lemma CommitFees(p: Pool, c: Candidate, v: Chainview, cfg: Config, d: Displaced, r: Pool, answer: Option<MempoolError>)
    requires Sound(p) && FeesExact(p) && Commits(p, c, v, cfg, d, r, answer) && Total(Fees(r.items)) <= U64_MAX
    ensures FeesExact(r)
  {
    CommitCases(p, c, v, cfg, d, r, answer);
    if r != p {
      var r0, item := RemoveSeq(p, Gone(d)), Built(p, RemoveSeq(p, d.replaced), c, v);
      RemoveSeqFeesExact(p, Gone(d));
      if answer.None? { AdmitFees(r0, item) by { RemoveSeqKeys(p, Gone(d)); } }
    }
  }

  lemma AdmitFees(p: Pool, item: Item)
    requires FeesExact(p) && item.id !in p.items && Total(Fees(Admit(p, item).items)) <= U64_MAX
    ensures FeesExact(Admit(p, item))
  {
    InsertFeesExactIff(p, item);
    RaiseProjections(Insert(p, item), item.id);
    AlikeSums(Admit(p, item).items, Insert(p, item).items);
  }

  ghost predicate FeesFit(states: seq<Pool>) { forall i :: 0 <= i < |states| ==> Total(Fees(states[i].items)) <= U64_MAX }

  lemma EmptyFees()
    ensures FeesExact(EMPTY)
  {
    EmptySound();
  }

  lemma ReinsertedFees(p: Pool, s: Pool, xs: seq<Item>, cfg: Config)
    requires FeesExact(p) && Listing(s.items, xs) && Reinsertable(p, s.items, cfg) && Total(Fees(InsertAll(p, xs).items)) <= U64_MAX
    ensures FeesExact(InsertAll(p, xs))
  {
    var r := ReinsertionFees(p, xs, |xs|);
    WholePrefix(xs);
  }

  lemma FeesStep(states: seq<Pool>, acts: seq<Act>, cfg: Config, k: nat)
    requires Run(states, acts, cfg) && k < |acts| && Timely(states, acts, cfg, k)
    requires Sound(states[k]) && FeesExact(states[k]) && Total(Fees(states[k + 1].items)) <= U64_MAX
    ensures FeesExact(states[k + 1])
  {
    var p := states[k];
    assert Step(states, cfg, k, acts[k]);
    match acts[k]
    case Submission(c, v, d, answer) => CommitFees(p, c, v, cfg, d, states[k + 1], answer);
    case Block(_, _, _, gone, _) => RemoveSeqFeesExact(p, gone);
    case Percentage(gone, _) => RemoveSeqFeesExact(p, gone);
    case Removal(id) => RemoveFeesExact(p, id);
    case Reset => EmptyFees();
    case Reinsertion(s, xs) => ReinsertedFees(p, states[s], xs, cfg);
  }

  lemma {:induction false} FeesExactAt(states: seq<Pool>, acts: seq<Act>, cfg: Config, i: nat)
    requires TimelyRun(states, acts, cfg) && i < |states| && FeesFit(states)
    ensures FeesExact(states[i])
  {
    if i == 0 {
      EmptyFees();
    } else {
      var k: nat :| k + 1 == i;
      FeesExactAt(states, acts, cfg, k);
      EveryStateSafe(states, acts, cfg, k);
      FeesStep(states, acts, cfg, k);
    }
  }

  /** The fee total is the exact sum in every state of a run if and only if every such sum fits a u64. */
  lemma FeesExactEverIff(states: seq<Pool>, acts: seq<Act>, cfg: Config)
    requires TimelyRun(states, acts, cfg)
    ensures (forall i :: 0 <= i < |states| ==> FeesExact(states[i])) <==> FeesFit(states)
  {
    if FeesFit(states) {
      forall i | 0 <= i < |states| ensures FeesExact(states[i]) { FeesExactAt(states, acts, cfg, i); }
    }
  }

  // ── No double spend ──

  /** Dedup is off, and created coins are named after a spent parent. */
  predicate Plain(act: Act) { act.Submission? ==> act.c.dedupKeys == [] && RootedCandidate(act.c) }

  predicate AllPlain(acts: seq<Act>) { forall a :: a in acts ==> Plain(a) }

  lemma RemovalFull(p: Pool, gone: seq<Id>)
    requires Sound(p) && CoinsFull(p)
    ensures CoinsFull(RemoveSeq(p, gone))
  {
    RemoveSeqSound(p, gone);
  }

  lemma IndexStep(states: seq<Pool>, acts: seq<Act>, cfg: Config, k: nat)
    requires Run(states, acts, cfg) && k < |acts| && Source(acts, k) <= k && Plain(acts[k])
    requires Timely(states, acts, cfg, k) && Unrivalled(states, acts, k)
    requires Safe(states[k], cfg) && Safe(states[Source(acts, k)], cfg)
    requires CoinsFull(states[k]) && CoinsFull(states[Source(acts, k)])
    ensures CoinsFull(states[k + 1])
  {
    var p := states[k];
    assert Step(states, cfg, k, acts[k]);
    match acts[k]
    case Submission(c, v, d, answer) => CommitNoDoubleSpend(p, c, v, cfg, d, states[k + 1], answer);
    case Block(_, _, _, gone, _) => RemovalFull(p, gone);
    case Percentage(gone, _) => RemovalFull(p, gone);
    case Removal(id) => RemoveIsSeq(p, id); RemovalFull(p, [id]);
    case Reset => EmptySound();
    case Reinsertion(s, xs) => ReinsertionCoinsIff(p, states[s], xs, cfg);
  }

  lemma {:induction false} EveryIndexFull(states: seq<Pool>, acts: seq<Act>, cfg: Config, i: nat)
    requires TimelyRun(states, acts, cfg) && AllUnrivalled(states, acts) && AllPlain(acts) && i < |states|
    ensures CoinsFull(states[i])
  {
    if i == 0 {
      EmptySound();
    } else {
      var k: nat :| k + 1 == i;
      SourceBefore(states, acts, cfg, k);
      EveryIndexFull(states, acts, cfg, k);
      EveryIndexFull(states, acts, cfg, Source(acts, k));
      EveryStateSafe(states, acts, cfg, k);
      EveryStateSafe(states, acts, cfg, Source(acts, k));
      IndexStep(states, acts, cfg, k);
    }
  }

  lemma UnrivalledWhen(states: seq<Pool>, acts: seq<Act>, cfg: Config, k: nat)
    requires TimelyRun(states, acts, cfg) && k < |acts| && Source(acts, k) <= k
    requires CoinsFull(states[k]) && CoinsFull(states[Source(acts, k)]) && CoinsFull(states[k + 1])
    ensures Unrivalled(states, acts, k)
  {
    if acts[k].Reinsertion? {
      assert Step(states, cfg, k, acts[k]) && Timely(states, acts, cfg, k);
      EveryStateSafe(states, acts, cfg, k);
      EveryStateSafe(states, acts, cfg, acts[k].snapshot);
      ReinsertionCoinsIff(states[k], states[acts[k].snapshot], acts[k].listing, cfg);
    }
  }

  /** With dedup off, no state has a coin claimed twice if and only if no re-insertion meets a rival. */
  lemma IndexFullEverIff(states: seq<Pool>, acts: seq<Act>, cfg: Config)
    requires TimelyRun(states, acts, cfg) && AllPlain(acts)
    ensures (forall i :: 0 <= i < |states| ==> CoinsFull(states[i])) <==> AllUnrivalled(states, acts)
  {
    if AllUnrivalled(states, acts) {
      forall i | 0 <= i < |states| ensures CoinsFull(states[i]) { EveryIndexFull(states, acts, cfg, i); }
    }
    if forall i :: 0 <= i < |states| ==> CoinsFull(states[i]) {
      forall k | 0 <= k < |acts| ensures Unrivalled(states, acts, k) {
        SourceBefore(states, acts, cfg, k);
        UnrivalledWhen(states, acts, cfg, k);
      }
    }
  }

  /** With dedup off: a coin has at most one active spender and one active creator, and the indexes name them. */
  lemma NoDoubleSpendEver(states: seq<Pool>, acts: seq<Act>, cfg: Config, i: nat, c: CoinId)
    requires TimelyRun(states, acts, cfg) && AllUnrivalled(states, acts) && AllPlain(acts) && i < |states|
    ensures var p := states[i];
      && (forall b :: b in p.items && c in p.items[b].removals <==> c in p.coinIndex && p.coinIndex[c] == b)
      && (forall b :: b in p.items && c in p.items[b].additions <==> c in p.mempoolCoins && p.mempoolCoins[c] == b)
    ensures IndexedDisjoint(states[i].items)
  {
    EveryIndexFull(states, acts, cfg, i);
    EveryStateSafe(states, acts, cfg, i);
    FullIndexDisjoint(states[i]);
    InverseIndex(states[i], c);
  }

  lemma InverseIndex(p: Pool, c: CoinId)
    requires CoinsTrue(p) && CoinsFull(p)
    ensures forall b :: b in p.items && c in p.items[b].removals <==> c in p.coinIndex && p.coinIndex[c] == b
    ensures forall b :: b in p.items && c in p.items[b].additions <==> c in p.mempoolCoins && p.mempoolCoins[c] == b
  {
    forall b
      ensures b in p.items && c in p.items[b].removals <==> c in p.coinIndex && p.coinIndex[c] == b
      ensures b in p.items && c in p.items[b].additions <==> c in p.mempoolCoins && p.mempoolCoins[c] == b
    {
      if b in p.items {
        assert Removals(p.items)[b] == Elems(p.items[b].removals) && Additions(p.items)[b] == Elems(p.items[b].additions);
      }
      if c in p.coinIndex { assert c in Removals(p.items)[p.coinIndex[c]]; }
      if c in p.mempoolCoins { assert c in Additions(p.items)[p.mempoolCoins[c]]; }
    }
  }

  // ── Dedup queues and singleton chains ──

  /** Bearer then waiters: exactly the carriers of the key, in admission order, no entry when there are none. */
  lemma QueuesEver(states: seq<Pool>, acts: seq<Act>, cfg: Config, i: nat, k: DedupKey, l: Id)
    requires TimelyRun(states, acts, cfg) && i < |states|
    ensures var p := states[i];
      && Queue(p.dedup, k) == Restrict(p.order, Holders(KeysOf(p.items), k))
      && NoDup(Queue(p.dedup, k)) && Elems(Queue(p.dedup, k)) == Holders(KeysOf(p.items), k)
      && (k in p.dedup.index <==> Holders(KeysOf(p.items), k) != {})
      && (k in p.dedup.waiters <==> |Queue(p.dedup, k)| > 1)
      && Chain(p.singletonSpends, l) == Restrict(p.order, OfLauncher(Launchers(p.items), l))
      && (l in p.singletonSpends <==> OfLauncher(Launchers(p.items), l) != {})
  {
    EveryStateSafe(states, acts, cfg, i);
    QueueFacts(states[i], k);
    ChainFacts(states[i], l);
  }

  lemma QueueFacts(p: Pool, k: DedupKey)
    requires Ordered(p.order, p.items) && DedupQueued(p.dedup, p.order, KeysOf(p.items))
    ensures NoDup(Queue(p.dedup, k)) && Elems(Queue(p.dedup, k)) == Holders(KeysOf(p.items), k)
    ensures k in p.dedup.index <==> Holders(KeysOf(p.items), k) != {}
    ensures k in p.dedup.waiters <==> |Queue(p.dedup, k)| > 1
  {
    RestrictFacts(p.order, Holders(KeysOf(p.items), k));
    assert Holders(KeysOf(p.items), k) <= Elems(p.order);
    ElemsEmpty(Queue(p.dedup, k));
  }

  lemma ChainFacts(p: Pool, l: Id)
    requires Ordered(p.order, p.items) && ChainsQueued(p.singletonSpends, p.order, Launchers(p.items))
    ensures l in p.singletonSpends <==> OfLauncher(Launchers(p.items), l) != {}
  {
    RestrictFacts(p.order, OfLauncher(Launchers(p.items), l));
    assert OfLauncher(Launchers(p.items), l) <= Elems(p.order);
    ElemsEmpty(Chain(p.singletonSpends, l));
  }

  // ── Families ──

  /** Turned away before anything is touched. */
  ghost predicate TurnedAway(p: Pool, c: Candidate, v: Chainview, cfg: Config)
    requires CoinsTrue(p)
  {
    c.id in p.items || Refusal(p, c, v, cfg).Some?
  }

  /** Known before the act: commits spare the family, plain removals hit leaves. */
  ghost predicate Considerate(p: Pool, act: Act, cfg: Config) {
    match act
    case Submission(c, v, _, _) =>
      CoinsTrue(p) && (TurnedAway(p, c, v, cfg) || FamilySpared(p, c, v, cfg))
    case Removal(id) => Succ(p.dependents, id) == {}
    case _ => true
  }

  lemma EmptyFamily()
    ensures Family(EMPTY)
  {
    EmptySound();
  }

  lemma LeafRemovalKeepsFamily(p: Pool, id: Id)
    requires Edged(p) && Family(p) && Succ(p.dependents, id) == {}
    ensures Family(Remove(p, id))
  {
    if id in p.items {
      RemoveIsSeq(p, id);
      LeafSwept(p, id);
      SweepKeepsFamily(p, [id]);
    }
  }

  lemma LeafSwept(p: Pool, id: Id)
    requires id in p.items && Succ(p.dependents, id) == {}
    ensures Swept(p, [id])
  {
    assert Elems([id]) == {id};
  }

  lemma ConsiderateCommit(p: Pool, c: Candidate, v: Chainview, cfg: Config, d: Displaced, r: Pool, answer: Option<MempoolError>)
    requires Sound(p) && Family(p) && Commits(p, c, v, cfg, d, r, answer) && Detectable(cfg)
    requires Considerate(p, Submission(c, v, d, answer), cfg)
    ensures Family(r)
  {
    if !TurnedAway(p, c, v, cfg) { CommitKeepsFamily(p, c, v, cfg, d, r, answer); }
  }

  lemma ConsiderateStep(states: seq<Pool>, acts: seq<Act>, cfg: Config, k: nat)
    requires Run(states, acts, cfg) && k < |acts| && Source(acts, k) <= k
    requires Timely(states, acts, cfg, k) && Considerate(states[k], acts[k], cfg)
    requires Safe(states[k], cfg) && Safe(states[Source(acts, k)], cfg) && Family(states[k]) && Family(states[Source(acts, k)])
    ensures Family(states[k + 1])
  {
    var p := states[k];
    assert Step(states, cfg, k, acts[k]);
    match acts[k]
    case Submission(c, v, d, answer) => ConsiderateCommit(p, c, v, cfg, d, states[k + 1], answer);
    case Block(_, _, _, gone, _) => SweepKeepsFamily(p, gone);
    case Percentage(gone, _) => SweepKeepsFamily(p, gone);
    case Removal(id) => LeafRemovalKeepsFamily(p, id);
    case Reset => EmptyFamily();
    case Reinsertion(s, xs) => ReinsertionKeepsFamily(p, states[s], xs, cfg);
  }

  ghost predicate AllConsiderate(states: seq<Pool>, acts: seq<Act>, cfg: Config)
    requires |states| == |acts| + 1
  {
    forall j :: 0 <= j < |acts| ==> Considerate(states[j], acts[j], cfg)
  }

  /** A timely run of considerate acts. */
  ghost predicate ConsiderateRun(states: seq<Pool>, acts: seq<Act>, cfg: Config) {
    TimelyRun(states, acts, cfg) && AllConsiderate(states, acts, cfg)
  }

  lemma FirstFamily(states: seq<Pool>, acts: seq<Act>, cfg: Config, r: Pool)
    requires ConsiderateRun(states, acts, cfg) && |states| > 0 && r == states[0]
    ensures Family(r)
  {
    EmptyFamily();
  }

  lemma SourceWithin(states: seq<Pool>, acts: seq<Act>, cfg: Config, k: nat)
    requires ConsiderateRun(states, acts, cfg) && k + 1 < |states|
    ensures |states| == |acts| + 1 && Source(acts, k) <= k
  {
    SourceBefore(states, acts, cfg, k);
  }

  lemma FamilyNext(states: seq<Pool>, acts: seq<Act>, cfg: Config, k: nat, i: nat)
    requires ConsiderateRun(states, acts, cfg) && k + 1 == i < |states| == |acts| + 1 && Source(acts, k) <= k
    requires Family(states[k]) && Family(states[Source(acts, k)])
    ensures Family(states[i])
  {
    EveryStateSafe(states, acts, cfg, k);
    EveryStateSafe(states, acts, cfg, Source(acts, k));
    ConsiderateStep(states, acts, cfg, k);
  }

  /**
   * In timely runs of considerate acts no item is ever orphaned, depth is the longest ancestor path,
   * package values cover the ancestor sums and scores cover the item and its direct children.
   */
  lemma {:induction false} EveryStateFamily(states: seq<Pool>, acts: seq<Act>, cfg: Config, i: nat)
    requires ConsiderateRun(states, acts, cfg) && i < |states|
    ensures Family(states[i])
  {
    if i == 0 {
      FirstFamily(states, acts, cfg, states[i]);
    } else {
      var k: nat :| k + 1 == i;
      SourceWithin(states, acts, cfg, k);
      EveryStateFamily(states, acts, cfg, k);
      EveryStateFamily(states, acts, cfg, Source(acts, k));
      FamilyNext(states, acts, cfg, k, i);
    }
  }

  // ── Scores from below ──

  /** Known before the act: a newcomer that gets in spares its own parents; a snapshot put back lacked no child edge. */
  ghost predicate SparesOwnParents(states: seq<Pool>, i: nat, act: Act, cfg: Config)
    requires i < |states|
  {
    match act
    case Submission(c, v, _, _) =>
      CoinsTrue(states[i]) && (TurnedAway(states[i], c, v, cfg) || (Enters(states[i], c, v, cfg) ==> ParentsSpared(states[i], c, v, cfg)))
    case Reinsertion(k, _) => k < |states| && EdgesFull(states[k])
    case _ => true
  }

  lemma SparingCommit(p: Pool, c: Candidate, v: Chainview, cfg: Config, d: Displaced, r: Pool, answer: Option<MempoolError>)
    requires Sound(p) && ScoresCover(p) && Commits(p, c, v, cfg, d, r, answer) && Detectable(cfg)
    requires TurnedAway(p, c, v, cfg) || (Enters(p, c, v, cfg) ==> ParentsSpared(p, c, v, cfg))
    ensures ScoresCover(r)
  {
    if !TurnedAway(p, c, v, cfg) { CommitScores(p, c, v, cfg, d, r, answer); }
  }

  lemma EmptyScores()
    ensures ScoresCover(EMPTY)
  {
  }

  lemma ScoresStep(states: seq<Pool>, acts: seq<Act>, cfg: Config, k: nat)
    requires Run(states, acts, cfg) && k < |acts| && Source(acts, k) <= k
    requires Timely(states, acts, cfg, k) && SparesOwnParents(states, k, acts[k], cfg)
    requires Safe(states[k], cfg) && Safe(states[Source(acts, k)], cfg)
    requires ScoresCover(states[k]) && ScoresCover(states[Source(acts, k)])
    ensures ScoresCover(states[k + 1])
  {
    var p := states[k];
    assert Step(states, cfg, k, acts[k]);
    match acts[k]
    case Submission(c, v, d, answer) => SparingCommit(p, c, v, cfg, d, states[k + 1], answer);
    case Block(_, _, _, gone, _) => RemoveSeqScores(p, gone);
    case Percentage(gone, _) => RemoveSeqScores(p, gone);
    case Removal(id) => RemoveScores(p, id);
    case Reset => EmptyScores();
    case Reinsertion(s, xs) => ReinsertionScores(p, states[s], xs, cfg);
  }

  /** No newcomer displaces its own parents. */
  ghost predicate AllSpareOwnParents(states: seq<Pool>, acts: seq<Act>, cfg: Config)
    requires |states| == |acts| + 1
  {
    forall j :: 0 <= j < |acts| ==> SparesOwnParents(states, j, acts[j], cfg)
  }

  lemma ScoresNext(states: seq<Pool>, acts: seq<Act>, cfg: Config, k: nat)
    requires TimelyRun(states, acts, cfg) && AllSpareOwnParents(states, acts, cfg) && k < |acts| && Source(acts, k) <= k
    requires ScoresCover(states[k]) && ScoresCover(states[Source(acts, k)])
    ensures ScoresCover(states[k + 1])
  {
    EveryStateSafe(states, acts, cfg, k);
    EveryStateSafe(states, acts, cfg, Source(acts, k));
    ScoresStep(states, acts, cfg, k);
  }

  /**
   * Whatever is removed, orphans or not, in every state a score covers the item's own rate and the
   * package rates of its recorded direct children, as long as no newcomer displaces its own parents.
   */
  lemma {:induction false} EveryScoreCovers(states: seq<Pool>, acts: seq<Act>, cfg: Config, i: nat)
    requires TimelyRun(states, acts, cfg) && AllSpareOwnParents(states, acts, cfg) && i < |states|
    ensures ScoresCover(states[i])
  {
    if i == 0 {
      EmptyScores();
    } else {
      var k: nat :| k + 1 == i;
      SourceBefore(states, acts, cfg, k);
      EveryScoreCovers(states, acts, cfg, k);
      EveryScoreCovers(states, acts, cfg, Source(acts, k));
      ScoresNext(states, acts, cfg, k);
    }
  }

  // ── Scores from above ──

  /** A submission that displaced nobody. */
  ghost predicate AddOnly(act: Act) {
    && act.Submission?
    && act.d.squeezed.k <= |act.d.squeezed.exposed| && act.d.squeezed.m <= |act.d.squeezed.shielded|
    && Gone(act.d) == []
  }

  lemma AddOnlyStep(p: Pool, c: Candidate, v: Chainview, cfg: Config, d: Displaced, r: Pool, answer: Option<MempoolError>)
    requires CoinsTrue(p) && Commits(p, c, v, cfg, d, r, answer) && AddOnly(Submission(c, v, d, answer))
    requires ScoresWitnessed(p)
    ensures ScoresWitnessed(r)
  {
    CommitCases(p, c, v, cfg, d, r, answer);
    if r != p && answer.None? {
      BuiltFields(p, RemoveSeq(p, d.replaced), c, v);
      AdmitWitnessed(p, Built(p, RemoveSeq(p, d.replaced), c, v));
    }
  }

  /** In add-only runs every score is the item's own rate or some transitive descendant's package rate. */
  lemma {:induction false} EveryScoreWitnessed(states: seq<Pool>, acts: seq<Act>, cfg: Config, i: nat)
    requires Run(states, acts, cfg) && i < |states| && forall a :: a in acts ==> AddOnly(a)
    ensures ScoresWitnessed(states[i])
  {
    if i > 0 {
      EveryScoreWitnessed(states, acts, cfg, i - 1);
      assert Step(states, cfg, i - 1, acts[i - 1]) && AddOnly(acts[i - 1]);
      var act := acts[i - 1];
      AddOnlyStep(states[i - 1], act.c, act.v, cfg, act.d, states[i], act.answer);
    }
  }

  // ── Blocks built from reachable states ──

  /**
   * A block selected in any reachable state lists distinct active items that can be mined at that
   * point, within the cost budget and the spend limit, dedup on or off, chains or not. No coin is
   * spent twice where no candidate pulls along a clash; every ancestor is listed first where chains
   * are closed.
   */
  lemma BlocksEver(states: seq<Pool>, acts: seq<Act>, cfg: Config, i: nat, maxCost: U64, height: U64, timestamp: U64, xs: seq<Id>)
    requires TimelyRun(states, acts, cfg) && i < |states|
    requires IsBlock(TemplateOf(states[i], maxCost, cfg.maxSpends, height, timestamp), xs)
    ensures var p, t := states[i], TemplateOf(states[i], maxCost, cfg.maxSpends, height, timestamp);
      && NoDup(xs) && (forall b :: b in xs ==> b in p.items && OpenAt(WindowOf(p.items[b]), height, timestamp))
      && Elems(xs) <= p.items.Keys
      && Sum(Costs(p.items), Elems(xs)) <= maxCost && Sum(Spends(p.items), Elems(xs)) <= cfg.maxSpends
      && (BatchesApart(t) ==> CoinsOnceIn(p.items, xs))
      && (ChainClosed(t) ==> forall j :: 0 <= j < |xs| ==> Ancestors(p.dependencies, xs[j]) <= Elems(xs[..j]))
  {
    EveryStateSafe(states, acts, cfg, i);
    BlockFrom(states[i], maxCost, cfg.maxSpends, height, timestamp, xs);
  }

  ghost predicate CoinsOnceIn(items: map<Id, Item>, xs: seq<Id>) {
    forall j, k :: 0 <= j < |xs| && 0 <= k < |xs| && j != k && xs[j] in items && xs[k] in items ==>
      Elems(items[xs[j]].removals) !! Elems(items[xs[k]].removals)
  }

  lemma BlockFrom(p: Pool, maxCost: U64, maxSpends: U64, height: U64, timestamp: U64, xs: seq<Id>)
    requires Sound(p) && p.totalSpends <= maxSpends
    requires IsBlock(TemplateOf(p, maxCost, maxSpends, height, timestamp), xs)
    ensures NoDup(xs) && Elems(xs) <= p.items.Keys
    ensures forall b :: b in xs ==> b in p.items && OpenAt(WindowOf(p.items[b]), height, timestamp)
    ensures Sum(Costs(p.items), Elems(xs)) <= maxCost && Sum(Spends(p.items), Elems(xs)) <= maxSpends
    ensures BatchesApart(TemplateOf(p, maxCost, maxSpends, height, timestamp)) ==> CoinsOnceIn(p.items, xs)
    ensures ChainClosed(TemplateOf(p, maxCost, maxSpends, height, timestamp)) ==>
      forall j :: 0 <= j < |xs| ==> Ancestors(p.dependencies, xs[j]) <= Elems(xs[..j])
  {
    var t := TemplateOf(p, maxCost, maxSpends, height, timestamp);
    SoundUsable(p, maxCost, maxSpends, height, timestamp);
    BlockWithinBudgets(t, xs);
    forall b | b in xs ensures b in p.items && OpenAt(WindowOf(p.items[b]), height, timestamp) {
      assert b in Elems(xs);
      SelectableIffOpen(p.items[b], height, timestamp);
    }
    if BatchesApart(t) { BlockCoins(t, xs); }
    if ChainClosed(t) {
      forall j | 0 <= j < |xs| ensures Ancestors(p.dependencies, xs[j]) <= Elems(xs[..j]) { AncestorsFirst(t, xs, j); }
    }
  }

  lemma BlockCoins(t: Template, xs: seq<Id>)
    requires Usable(t) && BatchesApart(t) && IsBlock(t, xs)
    ensures CoinsOnceIn(t.items, xs)
  {
    forall j, k, c | 0 <= j < |xs| && 0 <= k < |xs| && j != k && xs[j] in t.items && xs[k] in t.items
        && c in t.items[xs[j]].removals
      ensures c !in t.items[xs[k]].removals
    {
      if c in t.items[xs[k]].removals { NoCoinTwice(t, xs, j, k, c); }
    }
  }

  /** With dedup off no candidate ever pulls along a clash. */
  lemma PlainBlocks(states: seq<Pool>, acts: seq<Act>, cfg: Config, i: nat, maxCost: U64, height: U64, timestamp: U64)
    requires TimelyRun(states, acts, cfg) && AllUnrivalled(states, acts) && AllPlain(acts) && i < |states|
    ensures BatchesApart(TemplateOf(states[i], maxCost, cfg.maxSpends, height, timestamp))
  {
    EveryIndexFull(states, acts, cfg, i);
    FullIndexDisjoint(states[i]);
    DisjointApart(TemplateOf(states[i], maxCost, cfg.maxSpends, height, timestamp));
  }

  /** Without singleton lineages chains are closed. */
  lemma UnchainedBlocks(states: seq<Pool>, acts: seq<Act>, cfg: Config, i: nat, maxCost: U64, height: U64, timestamp: U64)
    requires TimelyRun(states, acts, cfg) && i < |states| && forall b :: b in states[i].items ==> states[i].items[b].launcher.None?
    ensures ChainClosed(TemplateOf(states[i], maxCost, cfg.maxSpends, height, timestamp))
  {
    EveryStateSafe(states, acts, cfg, i);
    NoChains(states[i]);
  }

  lemma NoChains(p: Pool)
    requires Sound(p) && forall b :: b in p.items ==> p.items[b].launcher.None?
    ensures p.singletonSpends == map[]
  {
    forall l ensures l !in p.singletonSpends { ChainFacts(p, l); }
  }
}
