/**
 * Admission to the active pool: everything a submission does under the pool's write lock
 * (src/mempool/submit.rs:582-934).
 */
module Admission {
  import opened Prelude
  import opened Items
  import opened Sums
  import opened Graph
  import opened PoolState
  import opened PoolInvariants
  import opened Cascades
  import opened Evictions
  import opened Packages
  import opened Timelocks
  import opened Rbf
  import opened ActivePools

  datatype Config = Config(maxTotalCost: U64, maxSpends: U64, maxDepth: nat, minBump: U64, protection: U64)

  /** What validation hands over; the dedup keys are empty when dedup is off or not allowed. */
  datatype Candidate = Candidate(
    id: Id, fee: U64, cost: U64, numSpends: U64,
    removals: seq<CoinId>, additions: seq<CoinId>,
    window: Window, launcher: Option<Id>, dedupKeys: seq<DedupKey>)
  {
    function Cost(): U64 { VirtualCost(cost, numSpends) }
    function Rate(): U128 { FpcScaled(fee, Cost()) }
  }

  /** The caller's view of the chain, and the verdict of the optional admission policy. */
  datatype Chainview = Chainview(onChain: set<CoinId>, height: U64, policyAccepts: bool)

  // ── Dependencies ──

  predicate Unknown(made: map<CoinId, Id>, onChain: set<CoinId>, c: CoinId) { c !in onChain && c !in made }

  /** The first coin that is neither on chain nor created by an active item. */
  function Missing(made: map<CoinId, Id>, onChain: set<CoinId>, coins: seq<CoinId>): Option<CoinId> {
    if coins == [] then None
    else if Unknown(made, onChain, coins[0]) then Some(coins[0])
    else Missing(made, onChain, coins[1..])
  }

  /** It is the first one. */
  lemma {:induction false} MissingFirst(made: map<CoinId, Id>, onChain: set<CoinId>, coins: seq<CoinId>) returns (n: nat)
    requires Missing(made, onChain, coins).Some?
    ensures n < |coins| && coins[n] == Missing(made, onChain, coins).value && coins[n] !in onChain && coins[n] !in made
    ensures forall m :: 0 <= m < n ==> coins[m] in onChain || coins[m] in made
  {
    if Unknown(made, onChain, coins[0]) {
      n := 0;
    } else {
      var k := MissingFirst(made, onChain, coins[1..]);
      n := k + 1;
      forall m | 0 <= m < n ensures coins[m] in onChain || coins[m] in made {
        if m > 0 { assert coins[m] == coins[1..][m - 1]; }
      }
    }
  }

  /** The creators of the coins that are not on chain. */
  ghost function Creators(made: map<CoinId, Id>, onChain: set<CoinId>, coins: seq<CoinId>): set<Id> {
    set c | c in coins && c !in onChain && c in made :: made[c]
  }

  lemma {:induction false} MissingIff(made: map<CoinId, Id>, onChain: set<CoinId>, coins: seq<CoinId>)
    ensures Missing(made, onChain, coins).None? <==> forall c :: c in coins ==> !Unknown(made, onChain, c)
    ensures Missing(made, onChain, coins).Some? ==>
      Missing(made, onChain, coins).value in coins && Unknown(made, onChain, Missing(made, onChain, coins).value)
  {
    if coins != [] {
      assert coins == [coins[0]] + coins[1..];
      MissingIff(made, onChain, coins[1..]);
    }
  }

  method ResolveParents(made: map<CoinId, Id>, onChain: set<CoinId>, coins: seq<CoinId>)
    returns (missing: Option<CoinId>, parents: set<Id>)
    ensures missing == Missing(made, onChain, coins)
    ensures missing.None? ==> parents == Creators(made, onChain, coins)
  {
    parents := {};
    for i := 0 to |coins|
      invariant Missing(made, onChain, coins) == Missing(made, onChain, coins[i..])
      invariant parents == Creators(made, onChain, coins[..i])
    {
      var c := coins[i];
      assert coins[i..][0] == c && coins[i..][1..] == coins[i + 1..];
      assert coins[..i + 1] == coins[..i] + [c];
      if c !in onChain {
        if c !in made { return Some(c), parents; }
        parents := parents + {made[c]};
      }
    }
    assert coins[|coins|..] == [] && coins[..|coins|] == coins;
    missing := None;
  }

  // ── Depth, cycles and packages ──

  ghost function DepthOf(items: map<Id, Item>): map<Id, nat> { map b | b in items :: items[b].depth }
  ghost function PackageFees(items: map<Id, Item>): map<Id, nat> { map b | b in items :: items[b].packageFee }
  ghost function PackageCosts(items: map<Id, Item>): map<Id, nat> { map b | b in items :: items[b].packageVirtualCost }

  lemma DepthsStep(depth: map<Id, nat>, done: set<Id>, q: Id)
    ensures Depths(depth, done + {q}) == Depths(depth, done) + (if q in depth then {depth[q]} else {})
  {
  }

  method ComputeDepth(items: map<Id, Item>, parents: set<Id>) returns (depth: nat)
    ensures depth == DepthOver(DepthOf(items), parents)
  {
    if parents == {} { return 0; }
    var rest := parents;
    var deepest: nat := 0;
    while rest != {}
      invariant rest <= parents
      invariant IsMax(deepest, Depths(DepthOf(items), parents - rest))
      decreases rest
    {
      var q :| q in rest;
      DepthsStep(DepthOf(items), parents - rest, q);
      assert parents - (rest - {q}) == (parents - rest) + {q};
      rest := rest - {q};
      if q in items && deepest < items[q].depth { deepest := items[q].depth; }
    }
    assert parents - rest == parents;
    MaxUnique(Depths(DepthOf(items), parents), deepest);
    depth := 1 + deepest;
  }

  /** The defensive walk over recorded parents, looking for the newcomer itself. */
  method FindCycle(ghost p: Pool, items: map<Id, Item>, parents: set<Id>, id: Id) returns (found: bool)
    requires Edged(p) && items == p.items
    ensures found <==> id in Reach(p.dependencies, {}, parents)
  {
    ghost var g := p.dependencies;
    var stack := Enumerate(parents);
    var visited: set<Id> := {};
    ExploreStart(g, {}, parents, stack);
    ReachCovers(g, {}, parents);
    while stack != []
      invariant Exploring(g, {}, parents, visited, stack) && id !in visited
      decreases parents + Nodes(g) - visited, |stack|
    {
      var a := stack[|stack| - 1];
      SuccDependencies(p, a);
      PopElems(stack);
      if a == id {
        assert Elems(stack) - {} <= Reach(g, {}, parents);
        return true;
      }
      if a in visited {
        ExploreSkip(g, {}, parents, visited, stack);
        stack := stack[..|stack| - 1];
      } else {
        var next := Enumerate(if a in items then items[a].dependsOn else {});
        ExploreVisit(g, {}, parents, visited, stack, next);
        visited := visited + {a};
        stack := stack[..|stack| - 1] + next;
      }
    }
    ExploreDone(g, {}, parents, visited);
    found := false;
  }

  /** The newcomer's own value plus its parents' package values; the sum of the latter wraps. */
  ghost function PackageValue(own: U64, pack: map<Id, nat>, parents: set<Id>): U64
    requires parents <= pack.Keys
  {
    if parents == {} then own else SatAdd(own, Wrap(Sum(pack, parents)))
  }

  /** Barring the empty case: the sum modulo 2^64, then capped. */
  lemma PackageValueMeans(own: U64, pack: map<Id, nat>, parents: set<Id>)
    requires parents <= pack.Keys
    ensures var sum := Sum(pack, parents) % TWO_64;
      PackageValue(own, pack, parents) == if own + sum > U64_MAX then U64_MAX else own + sum
  {
  }

  method PackageSums(items: map<Id, Item>, parents: set<Id>, fee: U64, vc: U64) returns (packageFee: U64, packageCost: U64)
    requires parents <= items.Keys
    ensures packageFee == PackageValue(fee, PackageFees(items), parents)
    ensures packageCost == PackageValue(vc, PackageCosts(items), parents)
  {
    if parents == {} { return fee, vc; }
    var ids := Enumerate(parents);
    var feeOf: map<Id, nat> := map b | b in items :: items[b].packageFee;
    var costOf: map<Id, nat> := map b | b in items :: items[b].packageVirtualCost;
    assert feeOf == PackageFees(items) && costOf == PackageCosts(items);
    var fees := WrappedSum(feeOf, ids);
    var cost := WrappedSum(costOf, ids);
    return SatAdd(fee, fees), SatAdd(vc, cost);
  }

  // ── Conflicts ──

  /** Coins whose identical spend is already carried by a bearer: no conflict. */
  function Shared(index: map<DedupKey, Id>, keys: seq<DedupKey>): set<CoinId> {
    set k | k in keys && k in index :: k.coin
  }

  function Conflicts(p: Pool, c: Candidate): seq<Id> {
    ConflictIds(p.coinIndex, c.removals, Shared(p.dedup.index, c.dedupKeys))
  }

  lemma ConflictsActive(p: Pool, c: Candidate)
    requires CoinsTrue(p)
    ensures NoDup(Conflicts(p, c)) && Elems(Conflicts(p, c)) <= p.items.Keys
  {
    ConflictIdsFacts(p.coinIndex, c.removals, Shared(p.dedup.index, c.dedupKeys));
    forall x | x in p.coinIndex ensures p.coinIndex[x] in p.items {
      assert p.coinIndex[x] in Removals(p.items);
    }
  }

  /**
   * Who conflicts with the newcomer: the indexed spender of one of its coins, unless the newcomer carries a dedup
   * key of that coin for which there is a bearer.
   */
  lemma ConflictIff(p: Pool, c: Candidate, b: Id)
    ensures b in Conflicts(p, c) <==>
      exists x :: x in c.removals && x in p.coinIndex && p.coinIndex[x] == b
        && forall k :: k in c.dedupKeys && k in p.dedup.index ==> k.coin != x
  {
    var skip := Shared(p.dedup.index, c.dedupKeys);
    ConflictIdsFacts(p.coinIndex, c.removals, skip);
    assert b in Conflicts(p, c) <==> b in Elems(Conflicts(p, c));
    forall x ensures x !in skip <==> forall k :: k in c.dedupKeys && k in p.dedup.index ==> k.coin != x {}
  }

  ghost function ParentsOf(p: Pool, c: Candidate, v: Chainview): set<Id> { Creators(p.mempoolCoins, v.onChain, c.removals) }

  /** A parent is who the index names as creator of a coin that the newcomer spends and the chain does not have. */
  lemma ParentsMeans(p: Pool, c: Candidate, v: Chainview, q: Id)
    ensures q in ParentsOf(p, c, v) <==> exists x :: x in c.removals && x !in v.onChain && x in p.mempoolCoins && p.mempoolCoins[x] == q
  {
  }

  lemma ParentsActive(p: Pool, c: Candidate, v: Chainview)
    requires CoinsTrue(p)
    ensures ParentsOf(p, c, v) <= p.items.Keys
  {
    forall x | x in p.mempoolCoins ensures p.mempoolCoins[x] in p.items {
      assert p.mempoolCoins[x] in Additions(p.items);
    }
  }

  /** The replace-by-fee rule the newcomer violates, if any. */
  ghost function Objection(p: Pool, c: Candidate, cfg: Config): Option<MempoolError>
    requires CoinsTrue(p)
  {
    ConflictsActive(p, c);
    if Conflicts(p, c) == [] then None
    else Verdict(p.items, Elems(Conflicts(p, c)), c.removals, c.fee, c.Rate(), cfg.minBump)
  }

  /** Spend limit, dependencies, depth, cycles. */
  ghost function FamilyRefusal(p: Pool, c: Candidate, v: Chainview, cfg: Config): Option<MempoolError> {
    var missing := Missing(p.mempoolCoins, v.onChain, c.removals);
    var parents := ParentsOf(p, c, v);
    var depth := DepthOver(DepthOf(p.items), parents);
    if SatAdd(p.totalSpends, c.numSpends) > cfg.maxSpends then
      Some(TooManySpends(SatAdd(p.totalSpends, c.numSpends), cfg.maxSpends))
    else if missing.Some? then Some(CoinNotFound(missing.value))
    else if depth > cfg.maxDepth then Some(DependencyTooDeep(depth, cfg.maxDepth))
    else if c.id in Reach(p.dependencies, {}, parents) then Some(DependencyCycle)
    else None
  }

  /** Every answer of these checks, and exactly when it is given. */
  lemma FamilyRefusalMeans(p: Pool, c: Candidate, v: Chainview, cfg: Config)
    ensures var r, parents := FamilyRefusal(p, c, v, cfg), ParentsOf(p, c, v);
      var spends := if p.totalSpends + c.numSpends > U64_MAX then U64_MAX else p.totalSpends + c.numSpends;
      var depth := DepthOver(DepthOf(p.items), parents);
      var full := spends > cfg.maxSpends;
      var known := forall x :: x in c.removals ==> x in v.onChain || x in p.mempoolCoins;
      var looped := c.id in Reach(p.dependencies, {}, parents);
      && (r == Some(TooManySpends(spends, cfg.maxSpends)) <==> full)
      && ((exists x :: r == Some(CoinNotFound(x))) <==> !full && !known)
      && (r == Some(DependencyTooDeep(depth, cfg.maxDepth)) <==> !full && known && depth > cfg.maxDepth)
      && (r == Some(DependencyCycle) <==> !full && known && depth <= cfg.maxDepth && looped)
      && (r == None <==> !full && known && depth <= cfg.maxDepth && !looped)
  {
    MissingIff(p.mempoolCoins, v.onChain, c.removals);
  }

  /** Why the newcomer is turned away before anything is touched, if it is: first failing check. */
  ghost function Refusal(p: Pool, c: Candidate, v: Chainview, cfg: Config): Option<MempoolError>
    requires CoinsTrue(p)
  {
    if FamilyRefusal(p, c, v, cfg).Some? then FamilyRefusal(p, c, v, cfg) else Objection(p, c, cfg)
  }

  // ── The item ──

  /** How many of the keys already have a bearer. */
  function Deduped(index: map<DedupKey, Id>, keys: seq<DedupKey>): nat {
    if keys == [] then 0 else
      Deduped(index, keys[..|keys| - 1]) + (if keys[|keys| - 1] in index then 1 else 0)
  }

  /** The number of positions in the list whose key has a bearer. */
  lemma {:induction false} DedupedCount(index: map<DedupKey, Id>, keys: seq<DedupKey>)
    ensures Deduped(index, keys) == |set i | 0 <= i < |keys| && keys[i] in index|
  {
    var here := set i | 0 <= i < |keys| && keys[i] in index;
    if keys == [] {
      assert here == {};
    } else {
      var rest, n := keys[..|keys| - 1], |keys| - 1;
      DedupedCount(index, rest);
      var before := set i | 0 <= i < |rest| && rest[i] in index;
      assert forall i :: 0 <= i < n ==> rest[i] == keys[i];
      assert here == if keys[n] in index then before + {n} else before;
    }
  }

  method CountDeduped(index: map<DedupKey, Id>, keys: seq<DedupKey>) returns (n: nat)
    ensures n == Deduped(index, keys)
  {
    n := 0;
    for i := 0 to |keys|
      invariant n == Deduped(index, keys[..i])
    {
      assert keys[..i + 1][..i] == keys[..i];
      if keys[i] in index { n := n + 1; }
    }
    assert keys[..|keys|] == keys;
  }

  function Saving(c: Candidate, deduped: nat): U64 {
    SatMul(if c.numSpends > 0 then c.cost / c.numSpends else 0, deduped)
  }

  lemma {:induction false} DedupedBound(index: map<DedupKey, Id>, keys: seq<DedupKey>)
    ensures Deduped(index, keys) <= |keys|
    ensures Deduped(index, keys) == |keys| <==> forall k :: k in keys ==> k in index
  {
    if keys != [] {
      DedupedBound(index, keys[..|keys| - 1]);
      assert keys == keys[..|keys| - 1] + [keys[|keys| - 1]];
    }
  }

  lemma ShareBound(cost: nat, n: nat, k: nat)
    requires n > 0 && k <= n
    ensures (cost / n) * k <= cost
  {
    DivBounds(cost, n);
    MulMono(k, n, cost / n);
  }

  /** Sharing at most all its spends saves a bundle at most its own cost. */
  lemma SavingBound(c: Candidate, deduped: nat)
    requires deduped <= c.numSpends
    ensures Saving(c, deduped) <= c.cost
  {
    if c.numSpends > 0 { ShareBound(c.cost, c.numSpends, deduped); }
  }

  /** Unless the virtual cost wrapped, what remains to be paid for covers the penalty for all spends. */
  lemma EffectiveCostBound(c: Candidate, deduped: nat)
    requires deduped <= c.numSpends && c.cost + c.numSpends * SPEND_PENALTY_COST <= U64_MAX
    ensures SatSub(c.Cost(), Saving(c, deduped)) == c.Cost() - Saving(c, deduped) >= c.numSpends * SPEND_PENALTY_COST
  {
    SavingBound(c, deduped);
    VirtualCostExactIff(c.cost, c.numSpends);
  }

  function MakeItem(c: Candidate, height: U64, parents: set<Id>, depth: nat, packageFee: U64, packageCost: U64, deduped: nat): Item {
    Item(c.id, c.fee, c.cost, c.Cost(), c.Rate(),
         packageFee, packageCost, FpcScaled(packageFee, packageCost), c.Rate(),
         c.additions, c.removals, height, c.numSpends,
         c.window.assertHeight, c.window.assertSeconds, c.window.beforeHeight, c.window.beforeSeconds,
         parents, depth, c.launcher,
         Saving(c, deduped), SatSub(c.Cost(), Saving(c, deduped)), c.dedupKeys)
  }

  /** Every field in its place. */
  lemma MakeItemMeans(c: Candidate, height: U64, parents: set<Id>, depth: nat, packageFee: U64, packageCost: U64, deduped: nat)
    ensures var i := MakeItem(c, height, parents, depth, packageFee, packageCost, deduped);
      && i.id == c.id && i.fee == c.fee && i.cost == c.cost && i.virtualCost == VirtualCost(c.cost, c.numSpends) && i.numSpends == c.numSpends
      && i.fpc == i.descendantScore == FpcScaled(c.fee, i.virtualCost) && i.packageFpc == FpcScaled(packageFee, packageCost)
      && i.packageFee == packageFee && i.packageVirtualCost == packageCost
      && i.additions == c.additions && i.removals == c.removals && i.launcher == c.launcher && i.dedupKeys == c.dedupKeys
      && i.heightAdded == height && i.dependsOn == parents && i.depth == depth
      && i.assertHeight == c.window.assertHeight && i.assertSeconds == c.window.assertSeconds
      && i.assertBeforeHeight == c.window.beforeHeight && i.assertBeforeSeconds == c.window.beforeSeconds
  {
  }

  /** The item as it is built: family values from `p`, savings from `q`, after replace-by-fee. */
  ghost function Built(p: Pool, q: Pool, c: Candidate, v: Chainview): Item
    requires CoinsTrue(p)
  {
    var parents := ParentsOf(p, c, v);
    ParentsActive(p, c, v);
    MakeItem(c, v.height, parents, DepthOver(DepthOf(p.items), parents),
             PackageValue(c.fee, PackageFees(p.items), parents), PackageValue(c.Cost(), PackageCosts(p.items), parents),
             Deduped(q.dedup.index, c.dedupKeys))
  }

  // ── The whole commit ──

  /** What was displaced: by replace-by-fee, and then to make room. */
  datatype Displaced = Displaced(replaced: seq<Id>, squeezed: Eviction)

  const NO_EVICTION: Eviction := Eviction([], 0, true, [], 0, true)

  /** The conflicts and everything below them. */
  ghost function ConflictTrees(p: Pool, c: Candidate): set<Id> { Reach(p.dependents, {}, Elems(Conflicts(p, c))) }

  ghost predicate Replaced(p: Pool, c: Candidate, gone: seq<Id>) { Swept(p, gone) && Elems(gone) == ConflictTrees(p, c) }

  ghost predicate RoomMade(q: Pool, item: Item, v: Chainview, cfg: Config, w: Eviction, ok: bool) {
    if Fits(q, item.virtualCost, cfg.maxTotalCost) then ok && w == NO_EVICTION
    else EvictedFor(q, item, cfg.maxTotalCost, v.height, cfg.protection, w, ok)
  }

  ghost function Gone(d: Displaced): seq<Id>
    requires d.squeezed.k <= |d.squeezed.exposed| && d.squeezed.m <= |d.squeezed.shielded|
  {
    d.replaced + Evicted(d.squeezed)
  }

  /** The outcome after the first checks: replace, make room, ask the policy, insert. */
  ghost predicate Replaces(p: Pool, c: Candidate, v: Chainview, cfg: Config, d: Displaced, ok: bool)
    requires CoinsTrue(p)
  {
    var q := RemoveSeq(p, d.replaced);
    && Replaced(p, c, d.replaced)
    && d.squeezed.k <= |d.squeezed.exposed| && d.squeezed.m <= |d.squeezed.shielded|
    && RoomMade(q, Built(p, q, c, v), v, cfg, d.squeezed, ok)
  }

  /** `answer` is `None` for success. */
  ghost predicate Commits(p: Pool, c: Candidate, v: Chainview, cfg: Config, d: Displaced, r: Pool, answer: Option<MempoolError>)
    requires CoinsTrue(p)
  {
    if c.id in p.items then r == p && answer == None
    else if Refusal(p, c, v, cfg).Some? then r == p && answer == Refusal(p, c, v, cfg)
    else
      && Replaces(p, c, v, cfg, d, answer != Some(MempoolFull))
      && (answer == if answer == Some(MempoolFull) then Some(MempoolFull) else if v.policyAccepts then None else Some(PolicyRejected))
      && r == if answer.None? then Admit(RemoveSeq(p, Gone(d)), Built(p, RemoveSeq(p, d.replaced), c, v)) else RemoveSeq(p, Gone(d))
  }

  /** Cascades from every conflict in turn. */
  method ReplaceAll(pool: ActivePool, roots: seq<Id>) returns (ghost gone: seq<Id>)
    requires Sound(pool.Model()) && Elems(roots) <= pool.items.Keys
    modifies pool
    ensures pool.Model() == RemoveSeq(old(pool.Model()), gone)
    ensures Swept(old(pool.Model()), gone) && Elems(gone) == Reach(old(pool.dependents), {}, Elems(roots))
  {
    ghost var p := pool.Model();
    gone := [];
    for i := 0 to |roots|
      invariant pool.Model() == RemoveSeq(p, gone) && Swept(p, gone)
      invariant Elems(roots[..i]) <= Elems(gone) <= Reach(p.dependents, {}, Elems(roots))
    {
      PrefixElems(roots, i);
      RemoveSeqSound(p, gone);
      var more := pool.CascadeEvict(roots[i]);
      ReplaceOne(p, gone, roots[i], Elems(roots), more);
      RemoveSeqConcat(p, gone, more);
      gone := gone + more;
    }
    WholePrefix(roots);
    SweptIsSubtrees(p, gone, Elems(roots));
  }

  lemma ReplaceOne(p: Pool, gone: seq<Id>, root: Id, roots: set<Id>, more: seq<Id>)
    requires Edged(p) && Swept(p, gone) && CascadeOf(RemoveSeq(p, gone), root, more)
    requires root in p.items && root in roots
    ensures Swept(p, gone + more) && Elems(gone) + {root} <= Elems(gone + more)
    ensures Elems(gone + more) <= Elems(gone) + Reach(p.dependents, {}, roots)
  {
    ElemsConcat(gone, more);
    SweptAppend(p, gone, more);
    SubtreeWithin(p, gone, root, roots);
    RemoveSeqItems(p, gone);
    if root in RemoveSeq(p, gone).items { assert root in Elems(more); }
  }

  method MakeRoom(pool: ActivePool, item: Item, v: Chainview, cfg: Config) returns (ok: bool, ghost w: Eviction)
    modifies pool
    ensures w.k <= |w.exposed| && w.m <= |w.shielded|
    ensures pool.Model() == RemoveSeq(old(pool.Model()), Evicted(w))
    ensures RoomMade(old(pool.Model()), item, v, cfg, w, ok)
  {
    ok, w := true, NO_EVICTION;
    assert Evicted(w) == [];
    if SatAdd(pool.totalCost, item.virtualCost) > cfg.maxTotalCost {
      ok, w := pool.EvictFor(item, cfg.maxTotalCost, v.height, cfg.protection);
    }
  }

  /** The checks that come first; they change nothing. */
  method Check(pool: ActivePool, c: Candidate, v: Chainview, cfg: Config)
    returns (refusal: Option<MempoolError>, parents: set<Id>, depth: nat, conflicts: seq<Id>)
    requires Sound(pool.Model())
    ensures refusal == Refusal(pool.Model(), c, v, cfg)
    ensures refusal.None? ==>
      && parents == ParentsOf(pool.Model(), c, v)
      && depth == DepthOver(DepthOf(pool.items), parents)
      && conflicts == Conflicts(pool.Model(), c)
  {
    conflicts := [];
    refusal, parents, depth := CheckFamily(pool, c, v, cfg);
    if refusal.None? { refusal, conflicts := CheckConflicts(pool, c, cfg); }
  }

  method CheckFamily(pool: ActivePool, c: Candidate, v: Chainview, cfg: Config)
    returns (refusal: Option<MempoolError>, parents: set<Id>, depth: nat)
    requires Edged(pool.Model())
    ensures refusal == FamilyRefusal(pool.Model(), c, v, cfg)
    ensures refusal.None? ==> parents == ParentsOf(pool.Model(), c, v) && depth == DepthOver(DepthOf(pool.items), parents)
  {
    parents, depth := {}, 0;
    if SatAdd(pool.totalSpends, c.numSpends) > cfg.maxSpends {
      return Some(TooManySpends(SatAdd(pool.totalSpends, c.numSpends), cfg.maxSpends)), {}, 0;
    }
    var missing;
    missing, parents := ResolveParents(pool.mempoolCoins, v.onChain, c.removals);
    if missing.Some? { return Some(CoinNotFound(missing.value)), {}, 0; }
    depth := ComputeDepth(pool.items, parents);
    if depth > cfg.maxDepth { return Some(DependencyTooDeep(depth, cfg.maxDepth)), {}, 0; }
    var cycle := FindCycle(pool.Model(), pool.items, parents, c.id);
    refusal := if cycle then Some(DependencyCycle) else None;
  }

  method CheckConflicts(pool: ActivePool, c: Candidate, cfg: Config) returns (refusal: Option<MempoolError>, conflicts: seq<Id>)
    requires CoinsTrue(pool.Model())
    ensures refusal == Objection(pool.Model(), c, cfg) && conflicts == Conflicts(pool.Model(), c)
  {
    conflicts := FindConflicts(pool.coinIndex, c.removals, Shared(pool.dedup.index, c.dedupKeys));
    ConflictsActive(pool.Model(), c);
    refusal := None;
    if conflicts != [] {
      refusal := Judge(pool.items, conflicts, c.removals, c.fee, c.Rate(), cfg.minBump);
    }
  }

  method Commit(pool: ActivePool, c: Candidate, v: Chainview, cfg: Config)
    returns (answer: Option<MempoolError>, ghost d: Displaced)
    requires Sound(pool.Model())
    modifies pool
    ensures Commits(old(pool.Model()), c, v, cfg, d, pool.Model(), answer)
  {
    ghost var p := pool.Model();
    d := Displaced([], NO_EVICTION);
    if c.id in pool.items { return None, d; }
    var refusal, parents, depth, conflicts := Check(pool, c, v, cfg);
    if refusal.Some? { return refusal, d; }
    ParentsActive(p, c, v);
    ConflictsActive(p, c);
    var packageFee, packageCost := PackageSums(pool.items, parents, c.fee, c.Cost());
    ghost var replaced := ReplaceAll(pool, conflicts);
    var deduped := CountDeduped(pool.dedup.index, c.dedupKeys);
    var item := MakeItem(c, v.height, parents, depth, packageFee, packageCost, deduped);
    assert item == Built(p, RemoveSeq(p, replaced), c, v);
    answer, d := Enter(pool, p, replaced, item, c, v, cfg);
  }

  /** Past the first checks, the answer and the final state follow from what was displaced. */
  lemma Concludes(p: Pool, c: Candidate, v: Chainview, cfg: Config, d: Displaced, r: Pool, answer: Option<MempoolError>)
    requires CoinsTrue(p) && c.id !in p.items && Refusal(p, c, v, cfg).None? && Replaces(p, c, v, cfg, d, answer != Some(MempoolFull))
    requires answer == Some(MempoolFull) || answer == if v.policyAccepts then None else Some(PolicyRejected)
    requires r == if answer.None? then Admit(RemoveSeq(p, Gone(d)), Built(p, RemoveSeq(p, d.replaced), c, v)) else RemoveSeq(p, Gone(d))
    ensures Commits(p, c, v, cfg, d, r, answer)
  {
  }

  /** Room, policy, insertion, scores. */
  method Enter(pool: ActivePool, ghost p: Pool, ghost replaced: seq<Id>, item: Item, c: Candidate, v: Chainview, cfg: Config)
    returns (answer: Option<MempoolError>, ghost d: Displaced)
    requires CoinsTrue(p) && Replaced(p, c, replaced) && pool.Model() == RemoveSeq(p, replaced)
    requires item == Built(p, RemoveSeq(p, replaced), c, v)
    requires c.id !in p.items && Refusal(p, c, v, cfg).None?
    modifies pool
    ensures Commits(p, c, v, cfg, d, pool.Model(), answer)
  {
    var ok;
    ghost var w;
    ok, w := MakeRoom(pool, item, v, cfg);
    d := Displaced(replaced, w);
    RemoveSeqConcat(p, replaced, Evicted(w));
    if !ok {
      answer := Some(MempoolFull);
    } else if !v.policyAccepts {
      answer := Some(PolicyRejected);
    } else {
      answer := None;
      pool.Insert(item);
      pool.UpdateDescendantScoresOnAdd(item.id);
    }
    Concludes(p, c, v, cfg, d, pool.Model(), answer);
  }
}
