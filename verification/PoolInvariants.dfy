/** What the redundant indexes of the active pool promise each other, and that every step keeps it. */
module PoolInvariants {
  import opened Prelude
  import opened Items
  import opened Queues
  import opened Sums
  import opened Graph
  import opened PoolState

  // ── Projections of the primary store: everything else is derived from these ──

  ghost function Costs(items: map<Id, Item>): map<Id, nat> { map b | b in items :: items[b].virtualCost }
  ghost function Fees(items: map<Id, Item>): map<Id, nat> { map b | b in items :: items[b].fee }
  ghost function Spends(items: map<Id, Item>): map<Id, nat> { map b | b in items :: items[b].numSpends }
  ghost function Removals(items: map<Id, Item>): map<Id, set<CoinId>> { map b | b in items :: Elems(items[b].removals) }
  ghost function Additions(items: map<Id, Item>): map<Id, set<CoinId>> { map b | b in items :: Elems(items[b].additions) }
  ghost function Parents(items: map<Id, Item>): Edges { map b | b in items :: items[b].dependsOn }
  ghost function KeysOf(items: map<Id, Item>): map<Id, seq<DedupKey>> { map b | b in items :: items[b].dedupKeys }
  ghost function Launchers(items: map<Id, Item>): map<Id, Option<Id>> { map b | b in items :: items[b].launcher }

  /** All of them at once: two stores that agree here differ in scores only. */
  ghost predicate Alike(a: map<Id, Item>, b: map<Id, Item>) {
    && a.Keys == b.Keys
    && forall x :: x in a ==> a[x].SameButScore(b[x])
  }

  /** The fields that no index looks at. */
  lemma AlikeRest(a: map<Id, Item>, b: map<Id, Item>, x: Id)
    requires Alike(a, b) && x in b
    ensures x in a && a[x].cost == b[x].cost && a[x].heightAdded == b[x].heightAdded && a[x].depth == b[x].depth
    ensures a[x].assertHeight == b[x].assertHeight && a[x].assertSeconds == b[x].assertSeconds
    ensures a[x].assertBeforeHeight == b[x].assertBeforeHeight && a[x].assertBeforeSeconds == b[x].assertBeforeSeconds
    ensures a[x].packageFee == b[x].packageFee && a[x].packageVirtualCost == b[x].packageVirtualCost
    ensures a[x].costSaving == b[x].costSaving && a[x].effectiveVirtualCost == b[x].effectiveVirtualCost
  {
    assert a[x].SameButScore(b[x]);
  }

  lemma AlikeFields(a: map<Id, Item>, b: map<Id, Item>, x: Id)
    requires Alike(a, b) && x in a
    ensures a[x].virtualCost == b[x].virtualCost && a[x].fee == b[x].fee && a[x].numSpends == b[x].numSpends
    ensures a[x].removals == b[x].removals && a[x].additions == b[x].additions
    ensures a[x].dependsOn == b[x].dependsOn && a[x].dedupKeys == b[x].dedupKeys && a[x].launcher == b[x].launcher
    ensures a[x].id == b[x].id && a[x].fpc == b[x].fpc && a[x].packageFpc == b[x].packageFpc
  {
    assert a[x].SameButScore(b[x]);
  }

  lemma AlikeSums(a: map<Id, Item>, b: map<Id, Item>)
    requires Alike(a, b)
    ensures Costs(a) == Costs(b) && Fees(a) == Fees(b) && Spends(a) == Spends(b)
  {
    forall x | x in a
      ensures a[x].virtualCost == b[x].virtualCost && a[x].fee == b[x].fee && a[x].numSpends == b[x].numSpends
    {
      AlikeFields(a, b, x);
    }
  }

  lemma AlikeProjections(a: map<Id, Item>, b: map<Id, Item>)
    requires Alike(a, b)
    ensures Removals(a) == Removals(b) && Additions(a) == Additions(b)
    ensures Parents(a) == Parents(b) && KeysOf(a) == KeysOf(b) && Launchers(a) == Launchers(b)
    ensures Keyed(b) ==> Keyed(a)
  {
    forall x | x in a
      ensures a[x].removals == b[x].removals && a[x].additions == b[x].additions
      ensures a[x].dependsOn == b[x].dependsOn && a[x].dedupKeys == b[x].dedupKeys && a[x].launcher == b[x].launcher
      ensures a[x].id == b[x].id
    {
      AlikeFields(a, b, x);
    }
  }

  lemma DropSums(a: map<Id, Item>, id: Id)
    ensures Costs(a - {id}) == Costs(a) - {id} && Fees(a - {id}) == Fees(a) - {id}
    ensures Spends(a - {id}) == Spends(a) - {id}
  {
  }

  lemma DropProjections(a: map<Id, Item>, id: Id)
    ensures Removals(a - {id}) == Removals(a) - {id} && Additions(a - {id}) == Additions(a) - {id}
    ensures Parents(a - {id}) == Parents(a) - {id} && KeysOf(a - {id}) == KeysOf(a) - {id}
    ensures Launchers(a - {id}) == Launchers(a) - {id}
  {
  }

  // ── The promises ──

  ghost predicate Keyed(items: map<Id, Item>) { forall b :: b in items ==> items[b].id == b }

  /** `dependencies` holds exactly the non-empty parent sets. */
  ghost predicate DependenciesExact(dependencies: Edges, parents: Edges) {
    dependencies == map b | b in parents && parents[b] != {} :: parents[b]
  }

  /** Every recorded child is active and names the parent; nothing empty is recorded. */
  ghost predicate DependentsTrue(dependents: Edges, parents: Edges) {
    && (forall q, c :: q in dependents && c in dependents[q] ==> c in parents && q in parents[c])
    && (forall q :: q in dependents ==> dependents[q] != {})
  }

  /** No coin entry is stale: it names an active owner of the coin. */
  ghost predicate IndexTrue(index: map<CoinId, Id>, own: map<Id, set<CoinId>>) {
    forall c :: c in index ==> index[c] in own && c in own[index[c]]
  }

  /** No coin entry is missing; with `IndexTrue`, the index is the exact inverse of ownership. */
  ghost predicate IndexFull(index: map<CoinId, Id>, own: map<Id, set<CoinId>>) {
    forall b, c :: b in own && c in own[b] ==> c in index && index[c] == b
  }

  /** Every created coin names a coin the same bundle spends. */
  ghost predicate RootedIn(made: map<Id, set<CoinId>>, spent: map<Id, set<CoinId>>) {
    forall b, c :: b in made && c in made[b] ==> c.Created? && b in spent && c.parent in spent[b]
  }

  ghost function Holders(keysOf: map<Id, seq<DedupKey>>, key: DedupKey): set<Id> {
    set b | b in keysOf && key in keysOf[b]
  }

  ghost function OfLauncher(launchers: map<Id, Option<Id>>, l: Id): set<Id> {
    set b | b in launchers && launchers[b] == Some(l)
  }

  /** Bearer first, then the waiters; empty when nobody carries the key. */
  ghost function Queue(d: Dedup, key: DedupKey): seq<Id> {
    if key in d.index then [d.index[key]] + Waiting(d, key) else []
  }

  ghost predicate DedupTidy(d: Dedup) {
    forall k :: k in d.waiters ==> k in d.index && d.waiters[k] != []
  }

  /** Each queue is the admission order cut down to the carriers of its key. */
  ghost predicate DedupQueued(d: Dedup, order: seq<Id>, keysOf: map<Id, seq<DedupKey>>) {
    && DedupTidy(d)
    && (forall b :: b in keysOf ==> NoDup(keysOf[b]))
    && (forall k :: Queue(d, k) == Restrict(order, Holders(keysOf, k)))
  }

  ghost predicate ChainsQueued(chains: map<Id, seq<Id>>, order: seq<Id>, launchers: map<Id, Option<Id>>) {
    && (forall l :: l in chains ==> chains[l] != [])
    && (forall l :: Chain(chains, l) == Restrict(order, OfLauncher(launchers, l)))
  }

  ghost predicate Ordered(order: seq<Id>, items: map<Id, Item>) { NoDup(order) && Elems(order) == items.Keys }

  /** Cost and spend accumulators are exact; the fee accumulator never exceeds the fee sum. */
  ghost predicate Counted(p: Pool) {
    && p.totalCost == Total(Costs(p.items))
    && p.totalSpends == Total(Spends(p.items))
    && p.totalFees <= Total(Fees(p.items))
  }

  /** The fee accumulator is exact too, which a saturated insertion spoils. */
  ghost predicate FeesExact(p: Pool) { p.totalFees == Total(Fees(p.items)) }

  ghost predicate Edged(p: Pool) {
    && DependenciesExact(p.dependencies, Parents(p.items))
    && DependentsTrue(p.dependents, Parents(p.items))
  }

  ghost predicate CoinsTrue(p: Pool) {
    && IndexTrue(p.coinIndex, Removals(p.items))
    && IndexTrue(p.mempoolCoins, Additions(p.items))
  }

  /** With dedup off: both coin indexes are complete. */
  ghost predicate CoinsFull(p: Pool) {
    && IndexFull(p.coinIndex, Removals(p.items))
    && IndexFull(p.mempoolCoins, Additions(p.items))
    && RootedIn(Additions(p.items), Removals(p.items))
  }

  /** Holds in every reachable state, whatever is removed and however coins are shared. */
  ghost predicate Sound(p: Pool) {
    && Keyed(p.items) && Edged(p) && CoinsTrue(p) && Counted(p)
    && Ordered(p.order, p.items)
    && DedupQueued(p.dedup, p.order, KeysOf(p.items))
    && ChainsQueued(p.singletonSpends, p.order, Launchers(p.items))
    && Acyclic(p.dependencies)
  }

  ghost predicate NoOrphans(items: map<Id, Item>) { forall b :: b in items ==> items[b].dependsOn <= items.Keys }

  /** Every named parent lists the child, active or not. */
  ghost predicate EdgesFull(p: Pool) {
    forall c, q :: c in p.items && q in p.items[c].dependsOn ==> c in Succ(p.dependents, q)
  }

  // ── Edges ──

  lemma SuccDependencies(p: Pool, b: Id)
    requires Edged(p)
    ensures Succ(p.dependencies, b) == if b in p.items then p.items[b].dependsOn else {}
  {
    assert b in p.items ==> Parents(p.items)[b] == p.items[b].dependsOn;
  }

  lemma DropEdges(deps: Edges, children: Edges, parents: Edges, id: Id)
    requires DependenciesExact(deps, parents) && DependentsTrue(children, parents) && id in parents
    ensures DependenciesExact(deps - {id}, parents - {id})
    ensures DependentsTrue(LeaveChildren(children, Succ(deps, id), id), parents - {id})
  {
  }

  lemma JoinEdgesTrue(deps: Edges, children: Edges, parents: Edges, id: Id, ps: set<Id>)
    requires DependenciesExact(deps, parents) && DependentsTrue(children, parents) && id !in parents
    ensures DependenciesExact(JoinParents(deps, ps, id), parents[id := ps])
    ensures DependentsTrue(JoinChildren(children, ps, id), parents[id := ps])
  {
    var m := parents[id := ps];
    assert Succ(deps, id) + ps == ps;
    forall q, c | q in JoinChildren(children, ps, id) && c in JoinChildren(children, ps, id)[q]
      ensures c in m && q in m[c]
    {
      if c != id || q !in ps { assert q in children && c in children[q]; }
    }
  }

  /** Among the survivors of a removal, exactly the edges between survivors remain. */
  lemma RemoveEdges(p: Pool, id: Id, x: Id)
    requires Edged(p) && id in p.items && x != id
    ensures Succ(Remove(p, id).dependents, x) == Succ(p.dependents, x) - {id}
    ensures Succ(Remove(p, id).dependencies, x) == Succ(p.dependencies, x)
  {
    SuccDependencies(p, id);
    if x in p.dependents && id in p.dependents[x] {
      assert x in Parents(p.items)[id];
    }
  }

  // ── Coin indexes ──

  lemma DropIndex(index: map<CoinId, Id>, own: map<Id, set<CoinId>>, id: Id)
    requires id in own
    ensures IndexTrue(index, own) ==> IndexTrue(index - own[id], own - {id})
    ensures IndexFull(index, own) ==> IndexFull(index - own[id], own - {id})
  {
    if IndexFull(index, own) {
      assert forall c :: c in own[id] ==> c in index && index[c] == id;
      forall b, c | b in own - {id} && c in (own - {id})[b]
        ensures c in index - own[id] && (index - own[id])[c] == b
      {
        assert index[c] == b;
      }
    }
  }

  lemma JoinIndex(index: map<CoinId, Id>, own: map<Id, set<CoinId>>, id: Id, coins: seq<CoinId>)
    requires id !in own
    ensures IndexTrue(index, own) ==> IndexTrue(index + Owned(coins, id), own[id := Elems(coins)])
    ensures IndexFull(index, own) && Elems(coins) !! index.Keys
        ==> IndexFull(index + Owned(coins, id), own[id := Elems(coins)])
  {
    assert forall c :: c in coins ==> c in Elems(coins);
  }

  lemma DropRooted(made: map<Id, set<CoinId>>, spent: map<Id, set<CoinId>>, id: Id)
    requires RootedIn(made, spent) && made.Keys == spent.Keys
    ensures RootedIn(made - {id}, spent - {id})
  {
  }

  lemma JoinRooted(made: map<Id, set<CoinId>>, spent: map<Id, set<CoinId>>, id: Id, m: set<CoinId>, s: set<CoinId>)
    requires RootedIn(made, spent) && id !in made && id !in spent
    requires forall c :: c in m ==> c.Created? && c.parent in s
    ensures RootedIn(made[id := m], spent[id := s])
  {
    var mades, spents := made[id := m], spent[id := s];
    forall b: Id, c: CoinId | b in mades && c in mades[b]
      ensures c.Created? && b in spents && c.parent in spents[b]
    {
      if b != id { assert b in made && c in made[b]; }
    }
  }

  // ── Dedup queues ──

  lemma JoinQueue(d: Dedup, key: DedupKey, id: Id, k: DedupKey)
    requires DedupTidy(d)
    ensures DedupTidy(DedupJoin(d, key, id))
    ensures Queue(DedupJoin(d, key, id), k) == Queue(d, k) + (if k == key then [id] else [])
  {
  }

  lemma LeaveBearer(d: Dedup, key: DedupKey)
    requires DedupTidy(d) && key in d.index && NoDup(Queue(d, key))
    ensures DedupTidy(DedupLeave(d, key, d.index[key]))
    ensures Queue(DedupLeave(d, key, d.index[key]), key) == Without(Queue(d, key), d.index[key])
  {
    var q := Queue(d, key);
    WithoutHead(q);
    assert q[1..] == Waiting(d, key);
  }

  lemma LeaveWaiter(d: Dedup, key: DedupKey, id: Id)
    requires DedupTidy(d) && key in d.index && d.index[key] != id
    ensures DedupTidy(DedupLeave(d, key, id))
    ensures Queue(DedupLeave(d, key, id), key) == Without(Queue(d, key), id)
  {
    WithoutConcat([d.index[key]], Waiting(d, key), id);
    WithoutSnoc([], d.index[key], id);
    assert [] + [d.index[key]] == [d.index[key]];
  }

  lemma LeaveQueue(d: Dedup, key: DedupKey, id: Id, k: DedupKey)
    requires DedupTidy(d) && NoDup(Queue(d, key))
    ensures DedupTidy(DedupLeave(d, key, id))
    ensures Queue(DedupLeave(d, key, id), k) == if k == key then Without(Queue(d, k), id) else Queue(d, k)
  {
    if key in d.index {
      if d.index[key] == id { LeaveBearer(d, key); } else { LeaveWaiter(d, key, id); }
    }
  }

  lemma SplitLast(keys: seq<DedupKey>, k: DedupKey)
    requires keys != [] && NoDup(keys)
    ensures NoDup(keys[..|keys| - 1]) && keys[|keys| - 1] !in keys[..|keys| - 1]
    ensures k in keys <==> k in keys[..|keys| - 1] || k == keys[|keys| - 1]
  {
    assert keys == keys[..|keys| - 1] + [keys[|keys| - 1]];
  }

  lemma {:induction false} JoinAllQueue(d: Dedup, keys: seq<DedupKey>, id: Id, k: DedupKey)
    requires DedupTidy(d) && NoDup(keys)
    ensures DedupTidy(DedupJoinAll(d, keys, id))
    ensures Queue(DedupJoinAll(d, keys, id), k) == Queue(d, k) + (if k in keys then [id] else [])
  {
    if keys != [] {
      SplitLast(keys, k);
      JoinAllQueue(d, keys[..|keys| - 1], id, k);
      JoinQueue(DedupJoinAll(d, keys[..|keys| - 1], id), keys[|keys| - 1], id, k);
    }
  }

  lemma {:induction false} LeaveAllQueue(d: Dedup, keys: seq<DedupKey>, id: Id, k: DedupKey)
    requires DedupTidy(d) && NoDup(keys)
    requires forall j :: j in keys ==> NoDup(Queue(d, j))
    ensures DedupTidy(DedupLeaveAll(d, keys, id))
    ensures Queue(DedupLeaveAll(d, keys, id), k) == if k in keys then Without(Queue(d, k), id) else Queue(d, k)
  {
    if keys != [] {
      var rest, last := keys[..|keys| - 1], keys[|keys| - 1];
      SplitLast(keys, k);
      var d' := DedupLeaveAll(d, rest, id);
      LeaveAllQueue(d, rest, id, last);
      assert Queue(d', last) == Queue(d, last);
      LeaveQueue(d', last, id, k);
      if k != last {
        LeaveAllQueue(d, rest, id, k);
      }
    }
  }

  lemma JoinedQueues(d: Dedup, keys: seq<DedupKey>, id: Id)
    requires DedupTidy(d) && NoDup(keys)
    ensures DedupTidy(DedupJoinAll(d, keys, id))
    ensures forall k :: Queue(DedupJoinAll(d, keys, id), k) == Queue(d, k) + (if k in keys then [id] else [])
  {
    JoinAllQueue(d, keys, id, DedupKey(Minted(0), 0));
    forall k ensures Queue(DedupJoinAll(d, keys, id), k) == Queue(d, k) + (if k in keys then [id] else []) {
      JoinAllQueue(d, keys, id, k);
    }
  }

  lemma LeftQueues(d: Dedup, keys: seq<DedupKey>, id: Id)
    requires DedupTidy(d) && NoDup(keys) && forall k :: k in keys ==> NoDup(Queue(d, k))
    ensures DedupTidy(DedupLeaveAll(d, keys, id))
    ensures forall k :: Queue(DedupLeaveAll(d, keys, id), k) == if k in keys then Without(Queue(d, k), id) else Queue(d, k)
  {
    LeaveAllQueue(d, keys, id, DedupKey(Minted(0), 0));
    forall k ensures Queue(DedupLeaveAll(d, keys, id), k) == if k in keys then Without(Queue(d, k), id) else Queue(d, k) {
      LeaveAllQueue(d, keys, id, k);
    }
  }

  lemma DropQueued(d: Dedup, order: seq<Id>, keysOf: map<Id, seq<DedupKey>>, id: Id)
    requires DedupQueued(d, order, keysOf) && NoDup(order) && id in keysOf
    ensures DedupQueued(DedupLeaveAll(d, keysOf[id], id), Without(order, id), keysOf - {id})
  {
    forall j ensures NoDup(Queue(d, j)) {
      RestrictFacts(order, Holders(keysOf, j));
    }
    LeaveAllQueue(d, keysOf[id], id, DedupKey(Minted(0), 0));
    forall k
      ensures Queue(DedupLeaveAll(d, keysOf[id], id), k) == Restrict(Without(order, id), Holders(keysOf - {id}, k))
    {
      var s := Holders(keysOf, k);
      LeaveAllQueue(d, keysOf[id], id, k);
      assert Holders(keysOf - {id}, k) == s - {id};
      WithoutRestrict(order, s, id);
      if k !in keysOf[id] {
        RestrictFacts(order, s);
        WithoutFacts(Restrict(order, s), id);
        assert id !in Elems(Restrict(order, s));
      }
    }
  }

  lemma RestrictInsert(order: seq<Id>, id: Id, before: set<Id>, after: set<Id>)
    requires id !in order && after - {id} == before - {id}
    ensures Restrict(order + [id], after) == Restrict(order, before) + (if id in after then [id] else [])
  {
    RestrictSnoc(order, id, after);
    forall x ensures x in after * Elems(order) <==> x in before * Elems(order) {
      assert x in after - {id} <==> x in before - {id};
    }
    RestrictAgree(order, before, after);
  }

  lemma JoinQueued(d: Dedup, order: seq<Id>, keysOf: map<Id, seq<DedupKey>>, id: Id, keys: seq<DedupKey>)
    requires DedupQueued(d, order, keysOf) && id !in order && id !in keysOf && NoDup(keys)
    ensures DedupQueued(DedupJoinAll(d, keys, id), order + [id], keysOf[id := keys])
  {
    JoinAllQueue(d, keys, id, DedupKey(Minted(0), 0));
    forall k
      ensures Queue(DedupJoinAll(d, keys, id), k) == Restrict(order + [id], Holders(keysOf[id := keys], k))
    {
      JoinAllQueue(d, keys, id, k);
      RestrictInsert(order, id, Holders(keysOf, k), Holders(keysOf[id := keys], k));
    }
  }

  // ── Singleton chains ──

  lemma DropChain(chains: map<Id, seq<Id>>, order: seq<Id>, launchers: map<Id, Option<Id>>, id: Id)
    requires ChainsQueued(chains, order, launchers) && id in launchers
    ensures ChainsQueued(ChainLeave(chains, launchers[id], id), Without(order, id), launchers - {id})
  {
    var after := ChainLeave(chains, launchers[id], id);
    forall l: Id ensures Chain(after, l) == Restrict(Without(order, id), OfLauncher(launchers - {id}, l)) {
      var s := OfLauncher(launchers, l);
      assert OfLauncher(launchers - {id}, l) == s - {id};
      WithoutRestrict(order, s, id);
      assert Chain(chains, l) == Restrict(order, s);
      if launchers[id] != Some(l) {
        RestrictFacts(order, s);
        WithoutFacts(Restrict(order, s), id);
        assert id !in Elems(Restrict(order, s));
      }
    }
  }

  lemma JoinChain(chains: map<Id, seq<Id>>, order: seq<Id>, launchers: map<Id, Option<Id>>, id: Id, launcher: Option<Id>)
    requires ChainsQueued(chains, order, launchers) && id !in order && id !in launchers
    ensures ChainsQueued(ChainJoin(chains, launcher, id), order + [id], launchers[id := launcher])
  {
    forall l: Id
      ensures Chain(ChainJoin(chains, launcher, id), l) == Restrict(order + [id], OfLauncher(launchers[id := launcher], l))
    {
      assert Chain(chains, l) == Restrict(order, OfLauncher(launchers, l));
      RestrictInsert(order, id, OfLauncher(launchers, l), OfLauncher(launchers[id := launcher], l));
    }
  }

  // ── Removal keeps everything ──

  lemma RemoveItems(p: Pool, id: Id)
    ensures Alike(Remove(p, id).items, p.items - {id})
  {
  }

  lemma RemoveSums(p: Pool, id: Id)
    ensures Costs(Remove(p, id).items) == Costs(p.items) - {id}
    ensures Fees(Remove(p, id).items) == Fees(p.items) - {id}
    ensures Spends(Remove(p, id).items) == Spends(p.items) - {id}
  {
    RemoveItems(p, id);
    AlikeSums(Remove(p, id).items, p.items - {id});
    DropSums(p.items, id);
  }

  lemma RemoveProjections(p: Pool, id: Id)
    ensures Remove(p, id).items.Keys == p.items.Keys - {id}
    ensures Removals(Remove(p, id).items) == Removals(p.items) - {id}
    ensures Additions(Remove(p, id).items) == Additions(p.items) - {id}
    ensures Parents(Remove(p, id).items) == Parents(p.items) - {id}
    ensures KeysOf(Remove(p, id).items) == KeysOf(p.items) - {id}
    ensures Launchers(Remove(p, id).items) == Launchers(p.items) - {id}
    ensures Keyed(p.items) ==> Keyed(Remove(p, id).items)
  {
    RemoveItems(p, id);
    AlikeProjections(Remove(p, id).items, p.items - {id});
    DropProjections(p.items, id);
  }

  lemma RemoveCounted(p: Pool, id: Id)
    requires Counted(p)
    ensures Counted(Remove(p, id))
    ensures id in p.items ==> Remove(p, id).totalCost == p.totalCost - p.items[id].virtualCost
  {
    if id in p.items {
      RemoveSums(p, id);
      TotalRemove(Costs(p.items), id);
      TotalRemove(Fees(p.items), id);
      TotalRemove(Spends(p.items), id);
    }
  }

  lemma RemoveFeesExact(p: Pool, id: Id)
    requires FeesExact(p)
    ensures FeesExact(Remove(p, id)) && Total(Fees(Remove(p, id).items)) <= Total(Fees(p.items))
  {
    if id in p.items {
      RemoveSums(p, id);
      TotalRemove(Fees(p.items), id);
    }
  }

  lemma RemoveEdged(p: Pool, id: Id)
    requires Edged(p)
    ensures Edged(Remove(p, id))
  {
    if id in p.items {
      RemoveProjections(p, id);
      DropEdges(p.dependencies, p.dependents, Parents(p.items), id);
    }
  }

  lemma RemoveSound(p: Pool, id: Id)
    requires Sound(p)
    ensures Sound(Remove(p, id))
  {
    if id in p.items {
      var r := Remove(p, id);
      RemoveProjections(p, id);
      RemoveEdged(p, id);
      DropIndex(p.coinIndex, Removals(p.items), id);
      DropIndex(p.mempoolCoins, Additions(p.items), id);
      RemoveCounted(p, id);
      WithoutFacts(p.order, id);
      DropQueued(p.dedup, p.order, KeysOf(p.items), id);
      DropChain(p.singletonSpends, p.order, Launchers(p.items), id);
      AcyclicSubgraph(p.dependencies, r.dependencies);
    }
  }

  lemma RemoveCoinsFull(p: Pool, id: Id)
    requires CoinsFull(p)
    ensures CoinsFull(Remove(p, id))
  {
    if id in p.items {
      RemoveProjections(p, id);
      DropIndex(p.coinIndex, Removals(p.items), id);
      DropIndex(p.mempoolCoins, Additions(p.items), id);
      DropRooted(Additions(p.items), Removals(p.items), id);
    }
  }

  // ── Insertion keeps everything ──

  lemma InsertSums(p: Pool, item: Item)
    ensures Costs(Insert(p, item).items) == Costs(p.items)[item.id := item.virtualCost]
    ensures Fees(Insert(p, item).items) == Fees(p.items)[item.id := item.fee]
    ensures Spends(Insert(p, item).items) == Spends(p.items)[item.id := item.numSpends]
  {
    AddSums(p.items, item);
  }

  lemma AddSums(a: map<Id, Item>, item: Item)
    ensures Costs(a[item.id := item]) == Costs(a)[item.id := item.virtualCost]
    ensures Fees(a[item.id := item]) == Fees(a)[item.id := item.fee]
    ensures Spends(a[item.id := item]) == Spends(a)[item.id := item.numSpends]
  {
  }

  lemma AddCoins(a: map<Id, Item>, item: Item)
    ensures Removals(a[item.id := item]) == Removals(a)[item.id := Elems(item.removals)]
    ensures Additions(a[item.id := item]) == Additions(a)[item.id := Elems(item.additions)]
  {
  }

  lemma AddOthers(a: map<Id, Item>, item: Item)
    ensures Parents(a[item.id := item]) == Parents(a)[item.id := item.dependsOn]
    ensures KeysOf(a[item.id := item]) == KeysOf(a)[item.id := item.dedupKeys]
    ensures Launchers(a[item.id := item]) == Launchers(a)[item.id := item.launcher]
    ensures Keyed(a) ==> Keyed(a[item.id := item])
  {
  }

  /** What the caller of `insert` guarantees: a fresh id and accumulators that do not saturate. */
  ghost predicate CanInsert(p: Pool, item: Item) {
    && item.id !in p.items
    && p.totalCost + item.virtualCost <= U64_MAX
    && p.totalSpends + item.numSpends <= U64_MAX
    && NoDup(item.dedupKeys)
  }

  /** No walk over recorded parents leads from the item back to itself. */
  ghost predicate NoCycleThrough(p: Pool, item: Item) {
    item.id !in Reach(p.dependencies, {}, item.dependsOn)
  }

  lemma InsertCounted(p: Pool, item: Item)
    requires Counted(p) && CanInsert(p, item)
    ensures Counted(Insert(p, item))
  {
    InsertSums(p, item);
    TotalInsert(Costs(p.items), item.id, item.virtualCost);
    TotalInsert(Fees(p.items), item.id, item.fee);
    TotalInsert(Spends(p.items), item.id, item.numSpends);
  }

  /** An insertion keeps the fee total exact if and only if the new sum fits a u64. */
  lemma InsertFeesExactIff(p: Pool, item: Item)
    requires FeesExact(p) && item.id !in p.items
    ensures FeesExact(Insert(p, item)) <==> Total(Fees(p.items)) + item.fee <= U64_MAX
    ensures Total(Fees(Insert(p, item).items)) == Total(Fees(p.items)) + item.fee
  {
    InsertSums(p, item);
    TotalInsert(Fees(p.items), item.id, item.fee);
  }

  lemma InsertAcyclic(p: Pool, item: Item)
    requires Acyclic(p.dependencies) && NoCycleThrough(p, item)
    ensures Acyclic(Insert(p, item).dependencies)
  {
    ReachCovers(p.dependencies, {}, item.dependsOn);
    AcyclicExtend(p.dependencies, Insert(p, item).dependencies, item.id, item.dependsOn,
                  Reach(p.dependencies, {}, item.dependsOn));
  }

  lemma InsertEdged(p: Pool, item: Item)
    requires Edged(p) && item.id !in p.items
    ensures Edged(Insert(p, item))
  {
    AddOthers(p.items, item);
    JoinEdgesTrue(p.dependencies, p.dependents, Parents(p.items), item.id, item.dependsOn);
  }

  lemma InsertCoinsTrue(p: Pool, item: Item)
    requires CoinsTrue(p) && item.id !in p.items
    ensures CoinsTrue(Insert(p, item))
  {
    AddCoins(p.items, item);
    JoinIndex(p.coinIndex, Removals(p.items), item.id, item.removals);
    JoinIndex(p.mempoolCoins, Additions(p.items), item.id, item.additions);
  }

  lemma InsertQueued(p: Pool, item: Item)
    requires Ordered(p.order, p.items) && item.id !in p.items && NoDup(item.dedupKeys)
    requires DedupQueued(p.dedup, p.order, KeysOf(p.items))
    requires ChainsQueued(p.singletonSpends, p.order, Launchers(p.items))
    ensures var r := Insert(p, item);
      && Ordered(r.order, r.items)
      && DedupQueued(r.dedup, r.order, KeysOf(r.items))
      && ChainsQueued(r.singletonSpends, r.order, Launchers(r.items))
  {
    AddOthers(p.items, item);
    ElemsAppend(p.order, item.id);
    assert item.id !in Elems(p.order);
    JoinQueued(p.dedup, p.order, KeysOf(p.items), item.id, item.dedupKeys);
    JoinChain(p.singletonSpends, p.order, Launchers(p.items), item.id, item.launcher);
    InsertOrder(p, item);
  }

  lemma InsertOrder(p: Pool, item: Item)
    ensures var r := Insert(p, item);
      && r.items == p.items[item.id := item] && r.order == p.order + [item.id]
      && r.dedup == DedupJoinAll(p.dedup, item.dedupKeys, item.id)
      && r.singletonSpends == ChainJoin(p.singletonSpends, item.launcher, item.id)
  {
  }

  lemma InsertSound(p: Pool, item: Item)
    requires Sound(p) && CanInsert(p, item) && NoCycleThrough(p, item)
    ensures Sound(Insert(p, item))
  {
    AddOthers(p.items, item);
    InsertEdged(p, item);
    InsertCoinsTrue(p, item);
    InsertCounted(p, item);
    InsertQueued(p, item);
    InsertAcyclic(p, item);
  }

  /** Every created coin names a coin the item itself spends. */
  ghost predicate Rooted(item: Item) {
    forall c :: c in item.additions ==> c.Created? && c.parent in item.removals
  }

  /** Every coin the pool creates has its parent among the coins the pool spends. */
  lemma MadeFromSpent(p: Pool)
    requires CoinsTrue(p) && CoinsFull(p)
    ensures forall c :: c in p.mempoolCoins ==> c.Created? && c.parent in p.coinIndex
  {
    forall c | c in p.mempoolCoins ensures c.Created? && c.parent in p.coinIndex {
      assert c in Additions(p.items)[p.mempoolCoins[c]];
    }
  }

  /** A spend-disjoint newcomer keeps both coin indexes complete: coin ids name their parent. */
  lemma InsertCoinsFull(p: Pool, item: Item)
    requires CoinsTrue(p) && CoinsFull(p) && item.id !in p.items
    requires Rooted(item) && Elems(item.removals) !! p.coinIndex.Keys
    ensures CoinsFull(Insert(p, item))
  {
    AddCoins(p.items, item);
    MadeFromSpent(p);
    JoinIndex(p.coinIndex, Removals(p.items), item.id, item.removals);
    JoinIndex(p.mempoolCoins, Additions(p.items), item.id, item.additions);
    JoinRooted(Additions(p.items), Removals(p.items), item.id, Elems(item.additions), Elems(item.removals));
  }

  // ── Lifting scores changes nothing but scores ──

  lemma RaiseProjections(p: Pool, id: Id)
    ensures Alike(Raise(p, id).items, p.items)
  {
  }

  lemma RaiseKeeps(p: Pool, id: Id)
    ensures Sound(p) ==> Sound(Raise(p, id))
    ensures CoinsFull(p) ==> CoinsFull(Raise(p, id))
  {
    RaiseProjections(p, id);
    AlikeSums(Raise(p, id).items, p.items);
    AlikeProjections(Raise(p, id).items, p.items);
  }

  // ── Whole sequences of removals ──

  lemma {:induction false} RemoveSeqSound(p: Pool, ids: seq<Id>)
    requires Sound(p)
    ensures Sound(RemoveSeq(p, ids))
    ensures CoinsFull(p) ==> CoinsFull(RemoveSeq(p, ids))
  {
    if ids != [] {
      RemoveSeqSound(p, ids[..|ids| - 1]);
      RemoveSound(RemoveSeq(p, ids[..|ids| - 1]), ids[|ids| - 1]);
      if CoinsFull(p) { RemoveCoinsFull(RemoveSeq(p, ids[..|ids| - 1]), ids[|ids| - 1]); }
    }
  }

  lemma {:induction false} RemoveSeqCounted(p: Pool, ids: seq<Id>)
    requires Counted(p)
    ensures Counted(RemoveSeq(p, ids))
  {
    if ids != [] {
      RemoveSeqCounted(p, ids[..|ids| - 1]);
      RemoveCounted(RemoveSeq(p, ids[..|ids| - 1]), ids[|ids| - 1]);
    }
  }

  lemma {:induction false} RemoveSeqFeesExact(p: Pool, ids: seq<Id>)
    requires FeesExact(p)
    ensures FeesExact(RemoveSeq(p, ids)) && Total(Fees(RemoveSeq(p, ids).items)) <= Total(Fees(p.items))
  {
    if ids != [] {
      RemoveSeqFeesExact(p, ids[..|ids| - 1]);
      RemoveFeesExact(RemoveSeq(p, ids[..|ids| - 1]), ids[|ids| - 1]);
    }
  }

  /** What is left to pay for after a sequence of removals. */
  lemma RemoveSeqCost(p: Pool, ids: seq<Id>)
    requires Counted(p) && Elems(ids) <= p.items.Keys
    ensures Sum(Costs(p.items), Elems(ids)) <= p.totalCost
    ensures RemoveSeq(p, ids).totalCost == p.totalCost - Sum(Costs(p.items), Elems(ids))
  {
    RemoveSeqCounted(p, ids);
    RemoveSeqItems(p, ids);
    AlikeSums(RemoveSeq(p, ids).items, p.items - Elems(ids));
    DropCosts(p.items, Elems(ids));
    TotalRemoveSet(Costs(p.items), Elems(ids));
  }

  lemma DropCosts(a: map<Id, Item>, s: set<Id>)
    ensures Costs(a - s) == Costs(a) - s && Fees(a - s) == Fees(a) - s
  {
  }

  /** The survivors of a sequence of removals. */
  lemma {:induction false} RemoveSeqItems(p: Pool, ids: seq<Id>)
    ensures Alike(RemoveSeq(p, ids).items, p.items - Elems(ids))
  {
    if ids == [] {
      assert p.items - {} == p.items;
    } else {
      var zs, y := ids[..|ids| - 1], ids[|ids| - 1];
      var q := RemoveSeq(p, zs);
      RemoveSeqItems(p, zs);
      ElemsAppend(zs, y);
      assert ids == zs + [y];
      RemoveItems(q, y);
      AlikeDrop(Remove(q, y).items, q.items, p.items - Elems(zs), y);
      assert p.items - Elems(zs) - {y} == p.items - Elems(ids);
    }
  }

  lemma DropCoins(a: map<Id, Item>, s: set<Id>)
    ensures Removals(a - s) == Removals(a) - s && Additions(a - s) == Additions(a) - s
  {
  }

  lemma RemoveSeqCoins(p: Pool, ids: seq<Id>)
    ensures Removals(RemoveSeq(p, ids).items) == Removals(p.items) - Elems(ids)
    ensures Additions(RemoveSeq(p, ids).items) == Additions(p.items) - Elems(ids)
  {
    RemoveSeqItems(p, ids);
    AlikeProjections(RemoveSeq(p, ids).items, p.items - Elems(ids));
    DropCoins(p.items, Elems(ids));
  }

  lemma RemoveSeqKeys(p: Pool, ids: seq<Id>)
    ensures RemoveSeq(p, ids).items.Keys == p.items.Keys - Elems(ids)
  {
    RemoveSeqItems(p, ids);
  }

  lemma AlikeDrop(c: map<Id, Item>, a: map<Id, Item>, b: map<Id, Item>, id: Id)
    requires Alike(a, b) && Alike(c, a - {id})
    ensures Alike(c, b - {id})
  {
    forall x | x in c ensures c[x].SameButScore(b[x]) {
      assert c[x].SameButScore((a - {id})[x]) && a[x].SameButScore(b[x]);
    }
  }

  lemma ChildrenActive(p: Pool, x: Id)
    requires Edged(p)
    ensures Succ(p.dependents, x) <= p.items.Keys
    ensures forall c :: c in Succ(p.dependents, x) ==> c in p.items && x in p.items[c].dependsOn
  {
    forall c | c in Succ(p.dependents, x) ensures c in p.items && x in p.items[c].dependsOn {
      assert c in Parents(p.items) && x in Parents(p.items)[c];
    }
  }

  /** Among survivors, removals leave exactly the child edges between survivors. */
  lemma {:induction false} RemoveSeqChildren(p: Pool, ids: seq<Id>, x: Id)
    requires Edged(p)
    ensures Edged(RemoveSeq(p, ids))
    ensures x in RemoveSeq(p, ids).items ==>
      Succ(RemoveSeq(p, ids).dependents, x) == Succ(p.dependents, x) * RemoveSeq(p, ids).items.Keys
    ensures Succ(RemoveSeq(p, ids).dependents, x) <= Succ(p.dependents, x)
  {
    if ids == [] {
      ChildrenActive(p, x);
    } else {
      RemoveSeqChildren(p, ids[..|ids| - 1], x);
      RemoveChildren(RemoveSeq(p, ids[..|ids| - 1]), ids[|ids| - 1], x);
    }
  }

  lemma RemoveChildren(q: Pool, y: Id, x: Id)
    requires Edged(q)
    ensures Edged(Remove(q, y))
    ensures Remove(q, y).items.Keys == q.items.Keys - {y}
    ensures x in Remove(q, y).items ==>
      Succ(Remove(q, y).dependents, x) == Succ(q.dependents, x) * Remove(q, y).items.Keys
    ensures Succ(Remove(q, y).dependents, x) <= Succ(q.dependents, x)
  {
    ChildrenActive(q, x);
    RemoveEdged(q, y);
    RemoveItems(q, y);
    if y in q.items && x != y {
      RemoveEdges(q, y, x);
    }
  }

  /** The score `b` has once `gone` is gone: rescored from its remaining children if it lost one. */
  ghost function ScoreWithout(p: Pool, gone: set<Id>, b: Id): nat
    requires b in p.items
  {
    if exists c :: c in gone && c in p.items && b in p.items[c].dependsOn then
      var best := MaxOf(ChildRates(p.items, Succ(p.dependents, b) - gone));
      if best <= p.items[b].fpc then p.items[b].fpc else best
    else p.items[b].descendantScore
  }

  /** In whatever order a set is removed, the survivors end up with the same scores. */
  lemma {:induction false} RemoveSeqScore(p: Pool, ids: seq<Id>, b: Id)
    requires Edged(p) && b in RemoveSeq(p, ids).items
    ensures b in p.items && RemoveSeq(p, ids).items[b].descendantScore == ScoreWithout(p, Elems(ids), b)
  {
    RemoveSeqKeys(p, ids);
    if ids == [] {
      ElemsEmpty(ids);
    } else {
      var zs, y := ids[..|ids| - 1], ids[|ids| - 1];
      assert ids == zs + [y];
      ElemsAppend(zs, y);
      RemoveSeqKeys(p, zs);
      RemoveSeqScore(p, zs, b);
      ScoreStep(p, zs, y, b);
    }
  }

  /** The children of a survivor after one more removal. */
  lemma ChildrenAfter(p: Pool, zs: seq<Id>, y: Id, b: Id)
    requires Edged(p) && b in RemoveSeq(p, zs).items && b != y
    ensures b in Remove(RemoveSeq(p, zs), y).items
    ensures Succ(Remove(RemoveSeq(p, zs), y).dependents, b) == Succ(p.dependents, b) - (Elems(zs) + {y})
    ensures Succ(p.dependents, b) - (Elems(zs) + {y}) <= RemoveSeq(p, zs).items.Keys - {y}
  {
    RemoveSeqKeys(p, zs);
    RemoveSeqChildren(p, zs, b);
    RemoveChildren(RemoveSeq(p, zs), y, b);
    ChildrenActive(p, b);
  }

  lemma RescoredStep(p: Pool, zs: seq<Id>, y: Id, b: Id)
    requires Edged(p) && b in RemoveSeq(p, zs).items && b != y && y in RemoveSeq(p, zs).items
    requires y in p.items && b in p.items[y].dependsOn
    ensures b in p.items && b in Remove(RemoveSeq(p, zs), y).items
    ensures Remove(RemoveSeq(p, zs), y).items[b].descendantScore == ScoreWithout(p, Elems(zs) + {y}, b)
  {
    var q := RemoveSeq(p, zs);
    var rest, children := q.items - {y}, Remove(q, y).dependents;
    RemoveSeqParents(p, zs, y);
    SuccDependencies(p, y);
    assert Remove(q, y).items[b] == Rescored(rest, children, b);
    ChildrenAfter(p, zs, y, b);
    SurvivorRates(p, zs, y, Succ(children, b), b);
  }

  /** A survivor that is no parent of `y` keeps its score when `y` goes. */
  lemma ScoreKept(q: Pool, y: Id, b: Id)
    requires b in q.items && b != y && (y in q.items ==> b !in Succ(q.dependencies, y))
    ensures b in Remove(q, y).items && Remove(q, y).items[b].descendantScore == q.items[b].descendantScore
  {
  }

  lemma ScoreStep(p: Pool, zs: seq<Id>, y: Id, b: Id)
    requires Edged(p) && b in p.items && b in RemoveSeq(p, zs).items && b != y
    requires RemoveSeq(p, zs).items[b].descendantScore == ScoreWithout(p, Elems(zs), b)
    ensures b in Remove(RemoveSeq(p, zs), y).items
    ensures Remove(RemoveSeq(p, zs), y).items[b].descendantScore == ScoreWithout(p, Elems(zs) + {y}, b)
  {
    RemoveSeqKeys(p, zs);
    if y in RemoveSeq(p, zs).items && b in p.items[y].dependsOn {
      RescoredStep(p, zs, y, b);
    } else {
      RemoveSeqParents(p, zs, y);
      SuccDependencies(p, y);
      ScoreKept(RemoveSeq(p, zs), y, b);
      SameWithout(p, Elems(zs), y, b);
    }
  }

  /** Whoever is gone already, or names no such parent, makes no difference to its score. */
  lemma SameWithout(p: Pool, gone: set<Id>, y: Id, b: Id)
    requires Edged(p) && b in p.items && (y in p.items && b in p.items[y].dependsOn ==> y in gone)
    ensures ScoreWithout(p, gone + {y}, b) == ScoreWithout(p, gone, b)
  {
    ChildrenActive(p, b);
    assert Succ(p.dependents, b) - (gone + {y}) == Succ(p.dependents, b) - gone;
  }

  lemma SurvivorRates(p: Pool, zs: seq<Id>, y: Id, kids: set<Id>, b: Id)
    requires kids <= RemoveSeq(p, zs).items.Keys - {y} && b in RemoveSeq(p, zs).items
    ensures ChildRates(RemoveSeq(p, zs).items - {y}, kids) == ChildRates(p.items, kids)
    ensures b in p.items && RemoveSeq(p, zs).items[b].fpc == p.items[b].fpc
  {
    RemoveSeqItems(p, zs);
    forall c | c in RemoveSeq(p, zs).items
      ensures c in p.items && RemoveSeq(p, zs).items[c].packageFpc == p.items[c].packageFpc
      ensures RemoveSeq(p, zs).items[c].fpc == p.items[c].fpc
    {
      AlikeFields(RemoveSeq(p, zs).items, p.items - Elems(zs), c);
    }
  }

  /** Removing more is like having removed it all at once. */
  lemma ScoreWithoutTwice(p: Pool, ids: seq<Id>, s: set<Id>, b: Id)
    requires Edged(p) && b in RemoveSeq(p, ids).items
    ensures b in p.items && ScoreWithout(RemoveSeq(p, ids), s, b) == ScoreWithout(p, Elems(ids) + s, b)
  {
    var q := RemoveSeq(p, ids);
    RemoveSeqKeys(p, ids);
    RemoveSeqScore(p, ids, b);
    RemoveSeqChildren(p, ids, b);
    ChildrenActive(p, b);
    ParentsKept(p, ids, b);
    KidsTwice(p, Succ(p.dependents, b), q.items.Keys, Elems(ids), s);
    if forall c :: c in s && c in q.items ==> b !in q.items[c].dependsOn {
      assert Succ(p.dependents, b) - Elems(ids) == Succ(p.dependents, b) - (Elems(ids) + s);
    }
  }

  lemma KidsTwice(p: Pool, kids: set<Id>, left: set<Id>, gone: set<Id>, s: set<Id>)
    requires left == p.items.Keys - gone && kids <= p.items.Keys
    ensures kids * left - s == kids - (gone + s) <= left
  {
  }

  /** Survivors are parents of the same survivors, with the same rates. */
  lemma ParentsKept(p: Pool, ids: seq<Id>, b: Id)
    requires b in RemoveSeq(p, ids).items
    ensures var q := RemoveSeq(p, ids);
      && b in p.items && q.items[b].fpc == p.items[b].fpc
      && (forall c :: c in q.items ==> c in p.items && (b in q.items[c].dependsOn <==> b in p.items[c].dependsOn))
      && (forall kids: set<Id> :: kids <= q.items.Keys ==> ChildRates(q.items, kids) == ChildRates(p.items, kids))
  {
    var q := RemoveSeq(p, ids);
    RemoveSeqItems(p, ids);
    forall c | c in q.items
      ensures c in p.items && q.items[c].packageFpc == p.items[c].packageFpc && q.items[c].fpc == p.items[c].fpc
      ensures q.items[c].dependsOn == p.items[c].dependsOn
    {
      AlikeFields(q.items, p.items - Elems(ids), c);
    }
  }

  /** Survivors keep all their parent edges. */
  lemma RemoveSeqParents(p: Pool, ids: seq<Id>, x: Id)
    requires Edged(p)
    ensures Succ(RemoveSeq(p, ids).dependencies, x) == if x in RemoveSeq(p, ids).items then Succ(p.dependencies, x) else {}
  {
    SuccDependencies(p, x);
    RemoveSeqChildren(p, ids, x);
    SuccDependencies(RemoveSeq(p, ids), x);
    RemoveSeqItems(p, ids);
    if x in RemoveSeq(p, ids).items { AlikeFields(RemoveSeq(p, ids).items, p.items - Elems(ids), x); }
  }
}
