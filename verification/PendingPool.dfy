/**
 * The pool of timelocked items: insertion, removal, draining (src/pools/pending.rs) and the
 * admission of a pending bundle (src/mempool/submit.rs:500-580).
 */
module PendingPools {
  import opened Prelude
  import opened Items
  import opened Sums
  import opened PoolInvariants
  import opened Rbf
  import PoolState

  datatype Pending = Pending(items: map<Id, Item>, index: map<CoinId, Id>, cost: U64)

  datatype Limits = Limits(maxCount: nat, maxCost: U64, minBump: U64)

  const NOTHING: Pending := Pending(map[], map[], 0)

  function PendingInsert(s: Pending, item: Item): Pending {
    Pending(s.items[item.id := item], s.index + PoolState.Owned(item.removals, item.id), SatAdd(s.cost, item.virtualCost))
  }

  function PendingRemove(s: Pending, id: Id): Pending {
    if id !in s.items then s
    else Pending(s.items - {id}, s.index - Elems(s.items[id].removals), SatSub(s.cost, s.items[id].virtualCost))
  }

  function PendingRemoveSeq(s: Pending, ids: seq<Id>): Pending {
    if ids == [] then s else PendingRemove(PendingRemoveSeq(s, ids[..|ids| - 1]), ids[|ids| - 1])
  }

  /** Both lower time bounds are met. */
  predicate Ready(item: Item, height: U64, timestamp: U64) {
    && (item.assertHeight.Some? ==> item.assertHeight.value <= height)
    && (item.assertSeconds.Some? ==> item.assertSeconds.value <= timestamp)
  }

  // ── Invariants ──

  /** The coin index is exactly the inverse of the pending removals, and the cost is their sum. */
  ghost predicate PendingSound(s: Pending) {
    && Keyed(s.items)
    && IndexTrue(s.index, Removals(s.items)) && IndexFull(s.index, Removals(s.items))
    && s.cost == Total(Costs(s.items))
  }

  ghost predicate Within(s: Pending, limits: Limits) {
    |s.items| <= limits.maxCount && s.cost <= limits.maxCost
  }

  lemma PendingDisjoint(s: Pending, a: Id, b: Id, c: CoinId)
    requires PendingSound(s) && a in s.items && b in s.items && c in s.items[a].removals && c in s.items[b].removals
    ensures a == b
  {
    assert c in Removals(s.items)[a] && c in Removals(s.items)[b];
    assert s.index[c] == a && s.index[c] == b;
  }

  lemma RemoveKeeps(s: Pending, id: Id)
    requires PendingSound(s)
    ensures PendingSound(PendingRemove(s, id))
    ensures PendingRemove(s, id).cost <= s.cost && |PendingRemove(s, id).items| <= |s.items|
  {
    if id in s.items {
      DropProjections(s.items, id);
      DropSums(s.items, id);
      TotalRemove(Costs(s.items), id);
      DropIndex(s.index, Removals(s.items), id);
      DropCount(s.items, id);
    }
  }

  lemma DropCount(items: map<Id, Item>, id: Id)
    requires id in items
    ensures |items - {id}| < |items|
  {
    assert items.Keys == (items - {id}).Keys + {id};
  }

  lemma {:induction false} RemoveSeqKeeps(s: Pending, ids: seq<Id>)
    requires PendingSound(s)
    ensures PendingSound(PendingRemoveSeq(s, ids))
    ensures PendingRemoveSeq(s, ids).cost <= s.cost && |PendingRemoveSeq(s, ids).items| <= |s.items|
  {
    if ids != [] {
      RemoveSeqKeeps(s, ids[..|ids| - 1]);
      RemoveKeeps(PendingRemoveSeq(s, ids[..|ids| - 1]), ids[|ids| - 1]);
    }
  }

  lemma {:induction false} RemoveSeqLeaves(s: Pending, ids: seq<Id>)
    ensures PendingRemoveSeq(s, ids).items == s.items - Elems(ids)
    ensures forall c :: c in PendingRemoveSeq(s, ids).index ==> c in s.index && PendingRemoveSeq(s, ids).index[c] == s.index[c]
  {
    if ids == [] {
      assert s.items - {} == s.items;
    } else {
      RemoveSeqLeaves(s, ids[..|ids| - 1]);
      ElemsAppend(ids[..|ids| - 1], ids[|ids| - 1]);
      assert ids == ids[..|ids| - 1] + [ids[|ids| - 1]];
      assert s.items - Elems(ids[..|ids| - 1]) - {ids[|ids| - 1]} == s.items - Elems(ids);
    }
  }

  lemma InsertKeeps(s: Pending, item: Item)
    requires PendingSound(s) && item.id !in s.items && Elems(item.removals) !! s.index.Keys
    requires s.cost + item.virtualCost <= U64_MAX
    ensures PendingSound(PendingInsert(s, item))
  {
    AddCoins(s.items, item);
    AddSums(s.items, item);
    AddOthers(s.items, item);
    TotalInsert(Costs(s.items), item.id, item.virtualCost);
    JoinIndex(s.index, Removals(s.items), item.id, item.removals);
  }

  // ── Admission ──

  ghost function Blockers(s: Pending, item: Item): seq<Id> { ConflictIds(s.index, item.removals, {}) }

  /** The replace-by-fee rule the newcomer violates, if any. */
  ghost function Objection(s: Pending, item: Item, limits: Limits): Option<MempoolError>
    requires PendingSound(s)
  {
    var ids := Blockers(s, item);
    BlockersPending(s, item);
    if ids == [] then None
    else Verdict(s.items, Elems(ids), item.removals, item.fee, item.fpc, limits.minBump)
  }

  lemma BlockersPending(s: Pending, item: Item)
    requires PendingSound(s)
    ensures NoDup(Blockers(s, item)) && Elems(Blockers(s, item)) <= s.items.Keys
  {
    ConflictIdsFacts(s.index, item.removals, {});
  }

  /** What is left once the displaced items are gone; the newcomer has not been added yet. */
  ghost function Cleared(s: Pending, item: Item): Pending { PendingRemoveSeq(s, Blockers(s, item)) }

  ghost predicate NoRoom(s: Pending, item: Item, limits: Limits) {
    |s.items| >= limits.maxCount || SatAdd(s.cost, item.virtualCost) > limits.maxCost
  }

  /** The pool and the answer after submitting a timelocked item. */
  ghost function Submitted(s: Pending, item: Item, limits: Limits): (Pending, Result<U64, MempoolError>)
    requires PendingSound(s)
  {
    var height := if item.assertHeight.Some? then item.assertHeight.value else 0;
    if item.id in s.items then (s, Ok(height))
    else if Objection(s, item, limits).Some? then (s, Err(Objection(s, item, limits).value))
    else if NoRoom(Cleared(s, item), item, limits) then (Cleared(s, item), Err(PendingPoolFull))
    else (PendingInsert(Cleared(s, item), item), Ok(height))
  }

  /** Who stands in the newcomer's way: exactly the pending items that spend one of its coins. */
  lemma BlockersMeans(s: Pending, item: Item, b: Id)
    requires PendingSound(s)
    ensures b in Blockers(s, item) <==> b in s.items && exists c :: c in item.removals && c in s.items[b].removals
  {
    ConflictIdsFacts(s.index, item.removals, {});
    assert b in Blockers(s, item) <==> b in Elems(Blockers(s, item));
    if b in Blockers(s, item) {
      var c :| c in item.removals && c in s.index && s.index[c] == b;
      assert c in Removals(s.items)[b];
    }
    if b in s.items && exists c :: c in item.removals && c in s.items[b].removals {
      var c :| c in item.removals && c in s.items[b].removals;
      assert c in Removals(s.items)[b];
      assert s.index[c] == b;
    }
  }

  /** Every answer, and exactly when it is given: the rules first, then room in what is left of the pool. */
  lemma SubmittedMeans(s: Pending, item: Item, limits: Limits)
    requires PendingSound(s)
    ensures Elems(Blockers(s, item)) <= s.items.Keys
    ensures var r, left := Submitted(s, item, limits), Cleared(s, item);
      var verdict := if Blockers(s, item) == [] then None
        else Verdict(s.items, Elems(Blockers(s, item)), item.removals, item.fee, item.fpc, limits.minBump);
      var cost := if left.cost + item.virtualCost > U64_MAX then U64_MAX else left.cost + item.virtualCost;
      var fits := |left.items| < limits.maxCount && cost <= limits.maxCost;
      && (item.id in s.items ==> r.0 == s && r.1.Ok?)
      && (item.id !in s.items && verdict.Some? ==> r == (s, Err(verdict.value)))
      && (item.id !in s.items && verdict.None? && !fits ==> r == (left, Err(PendingPoolFull)))
      && (item.id !in s.items && verdict.None? && fits ==> r.1.Ok? && r.0.items == left.items[item.id := item])
      && (r.1.Ok? ==> r.1.value == if item.assertHeight.Some? then item.assertHeight.value else 0)
  {
    BlockersPending(s, item);
  }

  /** Past the rules, the newcomer spends every coin of everybody it displaces. */
  lemma DisplacedAreCovered(s: Pending, item: Item, limits: Limits, b: Id, c: CoinId)
    requires PendingSound(s) && item.id !in s.items && (Submitted(s, item, limits).1.Ok? || Submitted(s, item, limits).0 != s)
    requires b in Blockers(s, item) && b in s.items && c in s.items[b].removals
    ensures c in item.removals
  {
    SubmittedMeans(s, item, limits);
    assert b in Elems(Blockers(s, item));
    VerdictMeans(s.items, Elems(Blockers(s, item)), item.removals, item.fee, item.fpc, limits.minBump);
  }

  /** Displacing every blocker frees all the newcomer's coins. */
  lemma ClearedFree(s: Pending, item: Item)
    requires PendingSound(s)
    ensures PendingSound(Cleared(s, item)) && Elems(item.removals) !! Cleared(s, item).index.Keys
    ensures Cleared(s, item).cost <= s.cost && |Cleared(s, item).items| <= |s.items|
    ensures Cleared(s, item).items == s.items - Elems(Blockers(s, item))
  {
    var ids := Blockers(s, item);
    var r := Cleared(s, item);
    RemoveSeqKeeps(s, ids);
    RemoveSeqLeaves(s, ids);
    ConflictIdsFacts(s.index, item.removals, {});
    forall c | c in r.index ensures c !in Elems(item.removals) {
      assert r.index[c] !in Elems(ids);
    }
  }

  lemma AcceptedKeeps(r: Pending, item: Item, limits: Limits)
    requires PendingSound(r) && item.id !in r.items && Elems(item.removals) !! r.index.Keys
    requires limits.maxCost < U64_MAX && !NoRoom(r, item, limits)
    ensures PendingSound(PendingInsert(r, item)) && Within(PendingInsert(r, item), limits)
  {
    InsertKeeps(r, item);
    KeysCount(r.items, PendingInsert(r, item).items, item.id);
  }

  /** The pool after a submission is the old one, the cleared one, or the cleared one plus the item. */
  lemma SubmittedCases(s: Pending, item: Item, limits: Limits)
    requires PendingSound(s)
    ensures var r := Submitted(s, item, limits).0;
      || r == s
      || r == Cleared(s, item)
      || (item.id !in s.items && !NoRoom(Cleared(s, item), item, limits) && r == PendingInsert(Cleared(s, item), item))
  {
  }

  lemma SubmittedKeeps(s: Pending, item: Item, limits: Limits)
    requires PendingSound(s) && Within(s, limits) && limits.maxCost < U64_MAX
    ensures PendingSound(Submitted(s, item, limits).0) && Within(Submitted(s, item, limits).0, limits)
  {
    SubmittedCases(s, item, limits);
    ClearedFree(s, item);
    if item.id !in s.items && !NoRoom(Cleared(s, item), item, limits) {
      AcceptedKeeps(Cleared(s, item), item, limits);
    }
  }

  lemma KeysCount(a: map<Id, Item>, b: map<Id, Item>, id: Id)
    requires b.Keys == a.Keys + {id} && id !in a
    ensures |b| == |a| + 1
  {
    assert |b.Keys| == |a.Keys| + 1;
  }

  /**
   * A rejection leaves the pool unchanged unless replace-by-fee already displaced items before
   * the cost limit refused the newcomer.
   */
  lemma RejectionUnchangedIff(s: Pending, item: Item, limits: Limits)
    requires PendingSound(s) && Submitted(s, item, limits).1.Err?
    ensures Submitted(s, item, limits).0 == s <==> (Blockers(s, item) == [] || Objection(s, item, limits).Some?)
    ensures Within(s, limits) && Blockers(s, item) != [] && Objection(s, item, limits).None? ==>
      SatAdd(Cleared(s, item).cost, item.virtualCost) > limits.maxCost
  {
    ClearedFree(s, item);
    BlockersPending(s, item);
    var ids := Blockers(s, item);
    if ids != [] {
      assert ids[0] in Elems(ids);
      SmallerKeys(Cleared(s, item).items, s.items, ids[0]);
    }
  }

  lemma SmallerKeys(a: map<Id, Item>, b: map<Id, Item>, x: Id)
    requires a.Keys <= b.Keys && x in b && x !in a
    ensures |a| < |b| && a != b
  {
    CardStrict(a.Keys, b.Keys, x);
  }

  lemma {:induction false} CardStrict(s: set<Id>, t: set<Id>, x: Id)
    requires s <= t && x in t && x !in s
    ensures |s| < |t|
  {
    CardMono(s, t - {x});
  }

  lemma {:induction false} CardMono(s: set<Id>, t: set<Id>)
    requires s <= t
    ensures |s| <= |t|
    decreases s
  {
    if s != {} {
      var y :| y in s;
      CardMono(s - {y}, t - {y});
    }
  }

  // ── Draining ──

  ghost function Released(s: Pending, height: U64, timestamp: U64): set<Id> {
    set b | b in s.items && Ready(s.items[b], height, timestamp)
  }

  /** `drain` in any order releases the same items and leaves the same pool. */
  ghost predicate Drained(s: Pending, height: U64, timestamp: U64, r: Pending) {
    exists ids: seq<Id> :: NoDup(ids) && Elems(ids) == Released(s, height, timestamp) && r == PendingRemoveSeq(s, ids)
  }

  lemma DrainKeeps(s: Pending, height: U64, timestamp: U64, r: Pending, limits: Limits)
    requires PendingSound(s) && Within(s, limits) && Drained(s, height, timestamp, r)
    ensures PendingSound(r) && Within(r, limits)
  {
    var ids: seq<Id> :| NoDup(ids) && Elems(ids) == Released(s, height, timestamp) && r == PendingRemoveSeq(s, ids);
    RemoveSeqKeeps(s, ids);
  }

  lemma DrainedIds(s: Pending, height: U64, timestamp: U64, r: Pending)
    requires Drained(s, height, timestamp, r)
    ensures r.items.Keys <= s.items.Keys
  {
    var ids: seq<Id> :| NoDup(ids) && Elems(ids) == Released(s, height, timestamp) && r == PendingRemoveSeq(s, ids);
    RemoveSeqLeaves(s, ids);
  }

  lemma NothingSafe(limits: Limits)
    ensures PendingSound(NOTHING) && Within(NOTHING, limits)
  {
    assert Total(Costs(NOTHING.items)) == 0;
  }

  /** Draining releases exactly the items whose lower bounds are met, whatever the order. */
  lemma DrainedExactly(s: Pending, height: U64, timestamp: U64, r: Pending)
    requires PendingSound(s) && Drained(s, height, timestamp, r)
    ensures r.items == map b | b in s.items && !Ready(s.items[b], height, timestamp) :: s.items[b]
    ensures PendingSound(r)
  {
    var ids: seq<Id> :| NoDup(ids) && Elems(ids) == Released(s, height, timestamp) && r == PendingRemoveSeq(s, ids);
    RemoveSeqKeeps(s, ids);
    RemoveSeqLeaves(s, ids);
    NotReleased(s, height, timestamp);
  }

  /** Item by item: it leaves exactly if no lower bound lies ahead, and otherwise stays as it is. */
  lemma DrainedMeans(s: Pending, height: U64, timestamp: U64, r: Pending, b: Id)
    requires PendingSound(s) && Drained(s, height, timestamp, r)
    ensures b in r.items ==> b in s.items && r.items[b] == s.items[b]
    ensures b in s.items ==>
      (b !in r.items <==>
        && (s.items[b].assertHeight.Some? ==> s.items[b].assertHeight.value <= height)
        && (s.items[b].assertSeconds.Some? ==> s.items[b].assertSeconds.value <= timestamp))
  {
    DrainedExactly(s, height, timestamp, r);
  }

  lemma NotReleased(s: Pending, height: U64, timestamp: U64)
    ensures s.items - Released(s, height, timestamp) == map b | b in s.items && !Ready(s.items[b], height, timestamp) :: s.items[b]
  {
  }

  // ── The class ──

  class PendingPool {
    var pending: map<Id, Item>
    var pendingCoinIndex: map<CoinId, Id>
    var pendingCost: U64

    ghost function Model(): Pending
      reads this
    {
      Pending(pending, pendingCoinIndex, pendingCost)
    }

    constructor ()
      ensures Model() == NOTHING
    {
      pending, pendingCoinIndex, pendingCost := map[], map[], 0;
    }

    method Clear()
      modifies this
      ensures Model() == NOTHING
    {
      pending, pendingCoinIndex, pendingCost := map[], map[], 0;
    }

    method Insert(item: Item)
      modifies this
      ensures Model() == PendingInsert(old(Model()), item)
    {
      pendingCoinIndex := PoolState.IndexCoins(pendingCoinIndex, item.removals, item.id);
      pendingCost := SatAdd(pendingCost, item.virtualCost);
      pending := pending[item.id := item];
    }

    method Remove(id: Id) returns (removed: Option<Item>)
      modifies this
      ensures Model() == PendingRemove(old(Model()), id)
      ensures removed == if id in old(pending) then Some(old(pending)[id]) else None
    {
      if id !in pending { return None; }
      var item := pending[id];
      pending := pending - {id};
      pendingCoinIndex := PoolState.UnindexCoins(pendingCoinIndex, item.removals);
      pendingCost := SatSub(pendingCost, item.virtualCost);
      return Some(item);
    }

    method RemoveAll(ids: seq<Id>)
      modifies this
      ensures Model() == PendingRemoveSeq(old(Model()), ids)
    {
      assert ids[..0] == [];
      for i := 0 to |ids|
        invariant Model() == PendingRemoveSeq(old(Model()), ids[..i])
      {
        assert ids[..i + 1][..i] == ids[..i];
        var _ := Remove(ids[i]);
      }
      assert ids[..|ids|] == ids;
    }

    /** Takes out every item whose lower time bounds are met and hands it back for resubmission. */
    method Drain(height: U64, timestamp: U64) returns (released: seq<Item>)
      modifies this
      ensures Drained(old(Model()), height, timestamp, Model())
      ensures forall x :: x in released <==>
        exists b :: b in old(pending) && old(pending)[b] == x && Ready(x, height, timestamp)
    {
      var ready: set<Id> := set b | b in pending && Ready(pending[b], height, timestamp);
      assert ready == Released(Model(), height, timestamp);
      var ids := Enumerate(ready);
      released := [];
      for i := 0 to |ids|
        invariant |released| == i
        invariant forall j :: 0 <= j < i ==> ids[j] in pending && released[j] == pending[ids[j]]
      {
        assert ids[i] in Elems(ids);
        released := released + [pending[ids[i]]];
      }
      forall b | b in ready ensures pending[b] in released {
        var j :| 0 <= j < |ids| && ids[j] == b by { assert b in Elems(ids); }
      }
      forall x | x in released ensures exists b :: b in pending && pending[b] == x && Ready(x, height, timestamp) {
        var j :| 0 <= j < |released| && released[j] == x;
        assert ids[j] in Elems(ids);
      }
      RemoveAll(ids);
    }

    /** Phase 2a of a submission, under the pending lock. */
    method Submit(item: Item, limits: Limits) returns (r: Result<U64, MempoolError>)
      requires PendingSound(Model())
      modifies this
      ensures (Model(), r) == Submitted(old(Model()), item, limits)
    {
      var height := if item.assertHeight.Some? then item.assertHeight.value else 0;
      if item.id in pending { return Ok(height); }
      var ids := FindConflicts(pendingCoinIndex, item.removals, {});
      BlockersPending(Model(), item);
      if ids != [] {
        var verdict := Judge(pending, ids, item.removals, item.fee, item.fpc, limits.minBump);
        if verdict.Some? { return Err(verdict.value); }
      }
      RemoveAll(ids);
      if |pending| >= limits.maxCount { return Err(PendingPoolFull); }
      if SatAdd(pendingCost, item.virtualCost) > limits.maxCost { return Err(PendingPoolFull); }
      Insert(item);
      return Ok(height);
    }
  }
}
