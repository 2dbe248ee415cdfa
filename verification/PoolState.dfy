/**
 * The active pool as a value: what `insert` and `remove` do to each of its indexes
 * (src/pools/active.rs).
 */
module PoolState {
  import opened Prelude
  import opened Items
  import opened Queues
  import opened Graph

  datatype Pool = Pool(
    items: map<Id, Item>,
    coinIndex: map<CoinId, Id>,
    mempoolCoins: map<CoinId, Id>,
    dependencies: Edges,
    dependents: Edges,
    dedup: Dedup,
    singletonSpends: map<Id, seq<Id>>,
    totalCost: U64, totalFees: U64, totalSpends: U64,
    order: seq<Id>)  // history only: the active ids in admission order

  datatype Dedup = Dedup(index: map<DedupKey, Id>, waiters: map<DedupKey, seq<Id>>)

  const EMPTY: Pool := Pool(map[], map[], map[], map[], map[], Dedup(map[], map[]), map[], 0, 0, 0, [])

  // ── Dedup queues ──

  function Waiting(d: Dedup, key: DedupKey): seq<Id> {
    if key in d.waiters then d.waiters[key] else []
  }

  /** One round of the insertion loop over dedup keys. */
  function DedupJoin(d: Dedup, key: DedupKey, id: Id): Dedup {
    if key in d.index
    then d.(waiters := d.waiters[key := Waiting(d, key) + [id]])
    else d.(index := d.index[key := id])
  }

  /** One round of the removal loop over dedup keys: the first waiter inherits the bearer's role. */
  function DedupLeave(d: Dedup, key: DedupKey, id: Id): Dedup {
    if key in d.index && d.index[key] == id then
      var w := Waiting(d, key);
      if w == [] then Dedup(d.index - {key}, d.waiters - {key})
      else Dedup(d.index[key := w[0]], if |w| == 1 then d.waiters - {key} else d.waiters[key := w[1..]])
    else if key in d.waiters then
      var w := Without(d.waiters[key], id);
      d.(waiters := if w == [] then d.waiters - {key} else d.waiters[key := w])
    else d
  }

  function DedupJoinAll(d: Dedup, keys: seq<DedupKey>, id: Id): Dedup {
    if keys == [] then d else
      DedupJoin(DedupJoinAll(d, keys[..|keys| - 1], id), keys[|keys| - 1], id)
  }

  function DedupLeaveAll(d: Dedup, keys: seq<DedupKey>, id: Id): Dedup {
    if keys == [] then d else
      DedupLeave(DedupLeaveAll(d, keys[..|keys| - 1], id), keys[|keys| - 1], id)
  }

  // ── Singleton chains ──

  function Chain(chains: map<Id, seq<Id>>, launcher: Id): seq<Id> {
    if launcher in chains then chains[launcher] else []
  }

  function ChainJoin(chains: map<Id, seq<Id>>, launcher: Option<Id>, id: Id): map<Id, seq<Id>> {
    if launcher.None? then chains
    else chains[launcher.value := Chain(chains, launcher.value) + [id]]
  }

  function ChainLeave(chains: map<Id, seq<Id>>, launcher: Option<Id>, id: Id): map<Id, seq<Id>> {
    if launcher.None? || launcher.value !in chains then chains else
      var rest := Without(chains[launcher.value], id);
      if rest == [] then chains - {launcher.value} else chains[launcher.value := rest]
  }

  // ── CPFP edges ──

  function JoinParents(deps: Edges, parents: set<Id>, id: Id): Edges {
    if parents == {} then deps else deps[id := Succ(deps, id) + parents]
  }

  function JoinChildren(children: Edges, parents: set<Id>, id: Id): Edges {
    map q | q in children.Keys + parents :: if q in parents then Succ(children, q) + {id} else children[q]
  }

  /** Forget `id` as a child of `parents`, dropping parents left without children, then as a parent. */
  function LeaveChildren(children: Edges, parents: set<Id>, id: Id): Edges {
    map q | q in children && q != id && !(q in parents && children[q] <= {id})
      :: if q in parents then children[q] - {id} else children[q]
  }

  // ── Scores ──

  ghost function ChildRates(items: map<Id, Item>, children: set<Id>): set<nat> {
    set c | c in children && c in items :: items[c].packageFpc
  }

  ghost predicate IsMax(m: nat, s: set<nat>) {
    && (forall x :: x in s ==> x <= m)
    && (m in s || (s == {} && m == 0))
  }

  lemma {:induction false} MaxExists(s: set<nat>) returns (m: nat)
    ensures IsMax(m, s)
    decreases s
  {
    if s == {} {
      m := 0;
    } else {
      var x :| x in s;
      var n := MaxExists(s - {x});
      m := if n <= x then x else n;
      assert forall y :: y in s ==> y == x || y in s - {x};
    }
  }

  /** Largest element, 0 for the empty set. */
  ghost function MaxOf(s: set<nat>): (m: nat)
    ensures IsMax(m, s)
  {
    assert exists m: nat :: IsMax(m, s) by { var m := MaxExists(s); }
    var m: nat :| IsMax(m, s);
    m
  }

  lemma MaxUnique(s: set<nat>, m: nat)
    requires IsMax(m, s)
    ensures m == MaxOf(s)
  {
  }

  /** An item whose score is recomputed from its own rate and its remaining direct children. */
  ghost function Rescored(items: map<Id, Item>, children: Edges, b: Id): Item
    requires b in items
  {
    var best := MaxOf(ChildRates(items, Succ(children, b)));
    items[b].WithScore(if best <= items[b].fpc then items[b].fpc else best)
  }

  ghost function RescoreAll(items: map<Id, Item>, children: Edges, who: set<Id>): map<Id, Item> {
    map b | b in items :: if b in who then Rescored(items, children, b) else items[b]
  }

  /** Every listed coin, owned by `id`. */
  function Owned(coins: seq<CoinId>, id: Id): (m: map<CoinId, Id>)
    ensures forall c :: c in m <==> c in coins
    ensures forall c :: c in m ==> m[c] == id
  {
    if coins == [] then map[] else
      assert coins == coins[..|coins| - 1] + [coins[|coins| - 1]];
      Owned(coins[..|coins| - 1], id)[coins[|coins| - 1] := id]
  }

  lemma OwnedStep(coins: seq<CoinId>, i: nat, id: Id)
    requires i < |coins|
    ensures Owned(coins[..i + 1], id) == Owned(coins[..i], id)[coins[i] := id]
  {
    assert coins[..i + 1][..i] == coins[..i];
  }

  // ── The loops over coins ──

  lemma MergeOne(a: map<CoinId, Id>, b: map<CoinId, Id>, c: CoinId, id: Id)
    ensures (a + b)[c := id] == a + b[c := id]
  {
  }

  method IndexCoins(index: map<CoinId, Id>, coins: seq<CoinId>, id: Id) returns (r: map<CoinId, Id>)
    ensures r == index + Owned(coins, id)
  {
    r := index;
    for i := 0 to |coins|
      invariant r == index + Owned(coins[..i], id)
    {
      OwnedStep(coins, i, id);
      MergeOne(index, Owned(coins[..i], id), coins[i], id);
      r := r[coins[i] := id];
    }
    WholePrefix(coins);
  }

  method UnindexCoins(index: map<CoinId, Id>, coins: seq<CoinId>) returns (r: map<CoinId, Id>)
    ensures r == index - Elems(coins)
  {
    r := index;
    for i := 0 to |coins|
      invariant r == index - Elems(coins[..i])
    {
      r := r - {coins[i]};
      assert coins[..i + 1] == coins[..i] + [coins[i]];
      ElemsAppend(coins[..i], coins[i]);
    }
    assert coins[..|coins|] == coins;
  }

  // ── The two primitives ──

  function JoinCoins(p: Pool, item: Item): Pool {
    p.(coinIndex := p.coinIndex + Owned(item.removals, item.id),
       mempoolCoins := p.mempoolCoins + Owned(item.additions, item.id))
  }

  function JoinQueues(p: Pool, item: Item): Pool {
    p.(dedup := DedupJoinAll(p.dedup, item.dedupKeys, item.id),
       singletonSpends := ChainJoin(p.singletonSpends, item.launcher, item.id))
  }

  function JoinEdges(p: Pool, item: Item): Pool {
    p.(dependencies := JoinParents(p.dependencies, item.dependsOn, item.id),
       dependents := JoinChildren(p.dependents, item.dependsOn, item.id))
  }

  function JoinStore(p: Pool, item: Item): Pool {
    p.(items := p.items[item.id := item],
       totalCost := SatAdd(p.totalCost, item.virtualCost),
       totalFees := SatAdd(p.totalFees, item.fee),
       totalSpends := SatAdd(p.totalSpends, item.numSpends),
       order := p.order + [item.id])
  }

  function Insert(p: Pool, item: Item): Pool {
    JoinStore(JoinEdges(JoinQueues(JoinCoins(p, item), item), item), item)
  }

  function LeaveCoins(p: Pool, item: Item): Pool {
    p.(coinIndex := p.coinIndex - Elems(item.removals),
       mempoolCoins := p.mempoolCoins - Elems(item.additions))
  }

  function LeaveQueues(p: Pool, item: Item, id: Id): Pool {
    p.(dedup := DedupLeaveAll(p.dedup, item.dedupKeys, id),
       singletonSpends := ChainLeave(p.singletonSpends, item.launcher, id))
  }

  ghost function LeaveEdges(p: Pool, id: Id): Pool {
    var parents := Succ(p.dependencies, id);
    var children := LeaveChildren(p.dependents, parents, id);
    p.(items := RescoreAll(p.items - {id}, children, parents),
       dependencies := p.dependencies - {id},
       dependents := children)
  }

  function LeaveTotals(p: Pool, item: Item, id: Id): Pool {
    p.(totalCost := SatSub(p.totalCost, item.virtualCost),
       totalFees := SatSub(p.totalFees, item.fee),
       totalSpends := SatSub(p.totalSpends, item.numSpends),
       order := Without(p.order, id))
  }

  ghost function Remove(p: Pool, id: Id): Pool {
    if id !in p.items then p else
      var item := p.items[id];
      LeaveTotals(LeaveEdges(LeaveQueues(LeaveCoins(p, item), item, id), id), item, id)
  }

  ghost function RemoveSeq(p: Pool, ids: seq<Id>): Pool {
    if ids == [] then p else Remove(RemoveSeq(p, ids[..|ids| - 1]), ids[|ids| - 1])
  }

  lemma RemoveSeqSnoc(p: Pool, ids: seq<Id>, id: Id)
    ensures RemoveSeq(p, ids + [id]) == Remove(RemoveSeq(p, ids), id)
  {
    assert (ids + [id])[..|ids|] == ids;
  }

  lemma {:induction false} RemoveSeqConcat(p: Pool, xs: seq<Id>, ys: seq<Id>)
    ensures RemoveSeq(p, xs + ys) == RemoveSeq(RemoveSeq(p, xs), ys)
  {
    if ys == [] {
      assert xs + ys == xs;
    } else {
      var zs, y := ys[..|ys| - 1], ys[|ys| - 1];
      RemoveSeqConcat(p, xs, zs);
      assert xs + ys == (xs + zs) + [y];
      RemoveSeqSnoc(p, xs + zs, y);
    }
  }

  /** Nodes at which the walk stops: no longer active, or already scored at least `rate`. */
  ghost function Blocking(items: map<Id, Item>, deps: Edges, rate: U128): set<Id> {
    (Nodes(deps) - items.Keys) + set b | b in items && rate <= items[b].descendantScore
  }

  /** The ancestors whose score `update_descendant_scores_on_add` lifts. */
  ghost function Lifted(items: map<Id, Item>, deps: Edges, id: Id): set<Id>
    requires id in items
  {
    Reach(deps, Blocking(items, deps, items[id].packageFpc), Succ(deps, id))
  }

  ghost function Rated(items: map<Id, Item>, who: set<Id>, rate: U128): map<Id, Item> {
    map b | b in items :: if b in who then items[b].WithScore(rate) else items[b]
  }

  ghost function Raise(p: Pool, id: Id): Pool {
    if id !in p.items then p else
      p.(items := Rated(p.items, Lifted(p.items, p.dependencies, id), p.items[id].packageFpc))
  }

  /** What a successful submission does to the pool under the write lock. */
  ghost function Admit(p: Pool, item: Item): Pool { Raise(Insert(p, item), item.id) }
}
