/** Replace-by-fee: which items stand in the way, and when a newcomer may replace them. */
module Rbf {
  import opened Prelude
  import opened Items
  import opened Sums
  import opened PoolState
  import opened PoolInvariants

  datatype MempoolError =
    | AlreadySeen(id: Id)
    | Invalid(code: nat)  // whatever validation reports
    | InsufficientFee(required: U64, available: U64)
    | CostExceeded(cost: U64, max: U64)
    | CoinNotFound(coin: CoinId)
    | RbfNotSuperset
    | RbfFpcNotHigher
    | RbfBumpTooLow(required: U64, provided: U64)
    | MempoolFull
    | PendingPoolFull
    | ImpossibleTimelocks
    | Expired
    | DependencyTooDeep(depth: nat, maxDepth: nat)
    | DependencyCycle
    | TooManySpends(count: U64, max: U64)
    | PolicyRejected

  // ── Conflicting items ──

  /** The owners of the coins, except those in `skip`, in order of first appearance. */
  function ConflictIds(index: map<CoinId, Id>, coins: seq<CoinId>, skip: set<CoinId>): seq<Id> {
    if coins == [] then [] else
      var found := ConflictIds(index, coins[..|coins| - 1], skip);
      var c := coins[|coins| - 1];
      if c in index && c !in skip && index[c] !in found then found + [index[c]] else found
  }

  lemma {:induction false} ConflictIdsFacts(index: map<CoinId, Id>, coins: seq<CoinId>, skip: set<CoinId>)
    ensures NoDup(ConflictIds(index, coins, skip))
    ensures Elems(ConflictIds(index, coins, skip)) == set c | c in coins && c in index && c !in skip :: index[c]
  {
    if coins != [] {
      var rest, last := coins[..|coins| - 1], coins[|coins| - 1];
      ConflictIdsFacts(index, rest, skip);
      assert coins == rest + [last];
      assert forall c :: c in coins <==> c in rest || c == last;
      if last in index { ElemsAppend(ConflictIds(index, rest, skip), index[last]); }
    }
  }

  /** In order of first appearance: each id is listed at the first of its coins that counts. */
  lemma {:induction false} ConflictIdsOrder(index: map<CoinId, Id>, coins: seq<CoinId>, skip: set<CoinId>, i: nat) returns (n: nat)
    requires i < |ConflictIds(index, coins, skip)|
    ensures n < |coins| && coins[n] in index && coins[n] !in skip && index[coins[n]] == ConflictIds(index, coins, skip)[i]
    ensures forall m :: 0 <= m < n && coins[m] in index && coins[m] !in skip ==> index[coins[m]] in ConflictIds(index, coins, skip)[..i]
  {
    var rest := coins[..|coins| - 1];
    var found := ConflictIds(index, rest, skip);
    if i < |found| {
      n := ConflictIdsOrder(index, rest, skip, i);
      assert ConflictIds(index, coins, skip)[..i] == found[..i];
    } else {
      n := |coins| - 1;
      ConflictIdsFacts(index, rest, skip);
      assert ConflictIds(index, coins, skip)[..i] == found;
      forall m | 0 <= m < n && coins[m] in index && coins[m] !in skip ensures index[coins[m]] in found {
        assert rest[m] == coins[m];
        assert index[coins[m]] in Elems(found);
      }
    }
  }

  method FindConflicts(index: map<CoinId, Id>, coins: seq<CoinId>, skip: set<CoinId>) returns (ids: seq<Id>)
    ensures ids == ConflictIds(index, coins, skip)
  {
    ids := [];
    for i := 0 to |coins|
      invariant ids == ConflictIds(index, coins[..i], skip)
    {
      assert coins[..i + 1][..i] == coins[..i];
      var c := coins[i];
      if c in index && c !in skip && index[c] !in ids {
        ids := ids + [index[c]];
      }
    }
    assert coins[..|coins|] == coins;
  }

  // ── The three rules ──

  ghost predicate Superset(items: map<Id, Item>, conflicts: set<Id>, removals: seq<CoinId>) {
    forall b, c :: b in conflicts && b in items && c in items[b].removals ==> c in removals
  }

  /** First rule violated, if any: spend everything they spend, at a higher rate, with a fee bump. */
  ghost function Verdict(items: map<Id, Item>, conflicts: set<Id>, removals: seq<CoinId>,
                         fee: U64, fpc: U128, minBump: U64): Option<MempoolError>
    requires conflicts <= items.Keys
  {
    var fees, cost := Wrap(Sum(Fees(items), conflicts)), Wrap(Sum(Costs(items), conflicts));
    var required := SatAdd(fees, minBump);
    if !Superset(items, conflicts, removals) then Some(RbfNotSuperset)
    else if fpc <= FpcScaled(fees, cost) then Some(RbfFpcNotHigher)
    else if fee < required then Some(RbfBumpTooLow(required, fee))
    else None
  }

  /** Every answer, and exactly when it is given. */
  lemma VerdictMeans(items: map<Id, Item>, conflicts: set<Id>, removals: seq<CoinId>, fee: U64, fpc: U128, minBump: U64)
    requires conflicts <= items.Keys
    ensures var r := Verdict(items, conflicts, removals, fee, fpc, minBump);
      var fees, cost := Sum(Fees(items), conflicts) % TWO_64, Sum(Costs(items), conflicts) % TWO_64;
      var all := forall b, c :: b in conflicts && b in items && c in items[b].removals ==> c in removals;
      var higher := fpc > FpcScaled(fees, cost);
      var required := if fees + minBump > U64_MAX then U64_MAX else fees + minBump;
      && (r == Some(RbfNotSuperset) <==> exists b, c :: b in conflicts && b in items && c in items[b].removals && c !in removals)
      && (r == Some(RbfFpcNotHigher) <==> all && !higher)
      && (r == Some(RbfBumpTooLow(required, fee)) <==> all && higher && fee < required)
      && (r == None <==> all && higher && required <= fee)
  {
  }

  method SpendsAll(item: Item, removals: seq<CoinId>) returns (r: bool)
    ensures r <==> forall c :: c in item.removals ==> c in removals
  {
    for i := 0 to |item.removals|
      invariant forall c :: c in item.removals[..i] ==> c in removals
    {
      if item.removals[i] !in removals { return false; }
      assert item.removals[..i + 1] == item.removals[..i] + [item.removals[i]];
    }
    assert item.removals[..|item.removals|] == item.removals;
    return true;
  }

  method CheckSuperset(items: map<Id, Item>, ids: seq<Id>, removals: seq<CoinId>) returns (r: bool)
    requires Elems(ids) <= items.Keys
    ensures r <==> Superset(items, Elems(ids), removals)
  {
    for i := 0 to |ids|
      invariant forall j, c :: 0 <= j < i && c in items[ids[j]].removals ==> c in removals
    {
      assert ids[i] in Elems(ids);
      var ok := SpendsAll(items[ids[i]], removals);
      if !ok { return false; }
    }
    return true;
  }

  /** `.sum::<u64>()` over the listed ids. */
  method WrappedSum(value: map<Id, nat>, ids: seq<Id>) returns (r: U64)
    requires NoDup(ids) && Elems(ids) <= value.Keys
    ensures r == Wrap(Sum(value, Elems(ids)))
  {
    r := 0;
    ElemsEmpty(ids[..0]);
    for i := 0 to |ids|
      invariant Elems(ids[..i]) <= value.Keys && r == Wrap(Sum(value, Elems(ids[..i])))
    {
      assert ids[i] in Elems(ids) && ids[i] !in Elems(ids[..i]);
      assert ids[..i + 1] == ids[..i] + [ids[i]];
      ElemsAppend(ids[..i], ids[i]);
      SumPush(value, Elems(ids[..i]), ids[i]);
      r := Wrap(r + value[ids[i]]);
    }
    assert ids[..|ids|] == ids;
  }

  method Judge(items: map<Id, Item>, ids: seq<Id>, removals: seq<CoinId>, fee: U64, fpc: U128, minBump: U64)
    returns (r: Option<MempoolError>)
    requires NoDup(ids) && Elems(ids) <= items.Keys
    ensures r == Verdict(items, Elems(ids), removals, fee, fpc, minBump)
  {
    var superset := CheckSuperset(items, ids, removals);
    if !superset { return Some(RbfNotSuperset); }
    var feeOf: map<Id, nat> := map b | b in items :: items[b].fee;
    var costOf: map<Id, nat> := map b | b in items :: items[b].virtualCost;
    assert feeOf == Fees(items) && costOf == Costs(items);
    var fees := WrappedSum(feeOf, ids);
    var cost := WrappedSum(costOf, ids);
    if fpc <= FpcScaled(fees, cost) { return Some(RbfFpcNotHigher); }
    if fee < SatAdd(fees, minBump) { return Some(RbfBumpTooLow(SatAdd(fees, minBump), fee)); }
    return None;
  }

  lemma BetterRate(items: map<Id, Item>, conflicts: set<Id>, removals: seq<CoinId>, fee: U64, vc: U64, minBump: U64)
    requires conflicts <= items.Keys && Sum(Costs(items), conflicts) <= U64_MAX && Sum(Fees(items), conflicts) <= U64_MAX
    requires Verdict(items, conflicts, removals, fee, FpcScaled(fee, vc), minBump).None?
    ensures vc > 0
    ensures fee * Sum(Costs(items), conflicts) > Sum(Fees(items), conflicts) * vc <==> Sum(Costs(items), conflicts) > 0
  {
    var fees, cost := Sum(Fees(items), conflicts), Sum(Costs(items), conflicts);
    assert Wrap(fees) == fees && Wrap(cost) == cost;
    if cost > 0 { HigherScaledRateIsHigher(fee, vc, fees, cost); }
  }

  /** In a pool whose cost total is exact no set of items costs more than a u64. */
  lemma CostsInRange(p: Pool, s: set<Id>)
    requires Counted(p) && s <= p.items.Keys
    ensures Sum(Costs(p.items), s) <= p.totalCost <= U64_MAX
  {
    SumMono(Costs(p.items), s, Costs(p.items).Keys);
  }

  /**
   * While the fees of the replaced items add up to a u64, an accepted replacement has a cost and pays a strictly
   * better exact rate than they do together; they have such a rate if and only if they cost anything.
   */
  lemma ReplacementPaysMore(p: Pool, conflicts: set<Id>, removals: seq<CoinId>, fee: U64, vc: U64, minBump: U64)
    requires Sound(p) && conflicts <= p.items.Keys
    requires Verdict(p.items, conflicts, removals, fee, FpcScaled(fee, vc), minBump).None?
    requires Sum(Fees(p.items), conflicts) <= U64_MAX
    ensures vc > 0
    ensures fee * Sum(Costs(p.items), conflicts) > Sum(Fees(p.items), conflicts) * vc <==> Sum(Costs(p.items), conflicts) > 0
  {
    CostsInRange(p, conflicts);
    BetterRate(p.items, conflicts, removals, fee, vc, minBump);
  }

  /** It pays the bump on top of all replaced fees if and only if that sum fits a u64. */
  lemma BumpPaidIff(items: map<Id, Item>, conflicts: set<Id>, removals: seq<CoinId>, fee: U64, fpc: U128, minBump: U64)
    requires conflicts <= items.Keys && Verdict(items, conflicts, removals, fee, fpc, minBump).None?
    ensures fee >= Sum(Fees(items), conflicts) + minBump <==> Sum(Fees(items), conflicts) + minBump <= U64_MAX
  {
    var fees := Sum(Fees(items), conflicts);
    assert fees <= U64_MAX ==> Wrap(fees) == fees;
  }
}
