/** The three-tier minimum fee estimate (src/mempool/fee.rs:15-69). */
module FeeEstimates {
  import opened Prelude
  import opened Items

  /** `u128` product of a cost and a rate, saturating, divided by the scale and clamped to u64. */
  function FeeAt(vc: U64, rate: nat): U64 {
    var product := if vc * rate > U128_MAX then U128_MAX else vc * rate;
    var fee := product / FPC_SCALE;
    if fee > U64_MAX then U64_MAX else fee
  }

  ghost predicate IsLowest(l: U128, items: map<Id, Item>) {
    && (exists b :: b in items && items[b].fpc == l)
    && (forall b :: b in items ==> l <= items[b].fpc)
  }

  method Lowest(items: map<Id, Item>) returns (l: U128)
    requires items.Keys != {}
    ensures IsLowest(l, items)
  {
    var rest := items.Keys;
    var first :| first in rest;
    l := items[first].fpc;
    rest := rest - {first};
    while rest != {}
      invariant rest <= items.Keys
      invariant exists b :: b in items && items[b].fpc == l
      invariant forall b :: b in items.Keys - rest ==> l <= items[b].fpc
      decreases rest
    {
      var b :| b in rest;
      if items[b].fpc < l { l := items[b].fpc; }
      rest := rest - {b};
    }
  }

  /** Zero below 80% utilisation, a fixed rate up to 100%, one unit above the lowest rate beyond. */
  method EstimateMinFee(items: map<Id, Item>, totalCost: U64, maxTotalCost: U64, fullRate: U128, cost: U64, numSpends: U64)
    returns (fee: U64)
    ensures var vc := VirtualCost(cost, numSpends);
      if vc == 0 || maxTotalCost == 0 || items.Keys == {} || 10 * totalCost < 8 * maxTotalCost then fee == 0
      else if totalCost >= maxTotalCost then
        exists lowest: U128 :: IsLowest(lowest, items) && fee == FeeAt(vc, Min(lowest + 1, U128_MAX))
      else fee == FeeAt(vc, fullRate)
  {
    var vc := VirtualCost(cost, numSpends);
    if vc == 0 || maxTotalCost == 0 || items.Keys == {} { return 0; }
    if totalCost * 10 < maxTotalCost * 8 { return 0; }
    if totalCost >= maxTotalCost {
      var l := Lowest(items);
      var above: nat := l;
      return FeeAt(vc, Min(above + 1, U128_MAX));
    }
    return FeeAt(vc, fullRate);
  }

  /**
   * The full tier, with nothing saturated or clamped: the estimate is worth at most one unit more
   * than the lowest rate, one mojo more always beats the lowest rate, and the estimate itself
   * beats it exactly when the product divides evenly.
   */
  lemma FullTier(vc: U64, lowest: U128)
    requires vc > 0 && vc * (lowest + 1) <= U128_MAX && FeeAt(vc, lowest + 1) < U64_MAX
    ensures FpcScaled(FeeAt(vc, lowest + 1), vc) <= lowest + 1
    ensures FpcScaled(FeeAt(vc, lowest + 1) + 1, vc) > lowest
    ensures FpcScaled(FeeAt(vc, lowest + 1), vc) > lowest <==> vc * (lowest + 1) % FPC_SCALE == 0
  {
    var n := vc * (lowest + 1);
    var fee := n / FPC_SCALE;
    DivBounds(n, FPC_SCALE);
    assert fee == FeeAt(vc, lowest + 1);
    RateAtMost(fee, vc, lowest + 1);
    DivIsGreatest(fee * FPC_SCALE, vc, lowest + 1);
    DivIsGreatest((fee + 1) * FPC_SCALE, vc, lowest + 1);
    assert n == FPC_SCALE * fee + n % FPC_SCALE;
  }

  lemma RateAtMost(fee: U64, vc: U64, rate: nat)
    requires vc > 0 && fee * FPC_SCALE <= vc * rate
    ensures FpcScaled(fee, vc) <= rate
  {
    DivIsGreatest(fee * FPC_SCALE, vc, rate + 1);
    assert vc * (rate + 1) == vc * rate + vc;
  }

  /** So the documented "must beat the lowest item" fails already for a cost of 3 against rate 0. */
  lemma FullTierMayOnlyMatch()
    ensures FeeAt(3, 1) == 0 && FpcScaled(FeeAt(3, 1), 3) == 0
  {
  }

  // ── The configured spend penalty ──

  /** The virtual cost as documented: the penalty per spend is a setting (src/mempool/fee.rs:26). */
  function DocumentedCost(cost: U64, numSpends: U64, penalty: U64): nat { cost + numSpends * penalty }

  /** At a rate of one mojo per unit of cost the estimate is the cost itself. */
  lemma UnitRate(vc: U64)
    ensures FeeAt(vc, FPC_SCALE) == vc
  {
    MulMono(vc, U64_MAX, FPC_SCALE);
    DivBounds(vc * FPC_SCALE, FPC_SCALE);
    assert vc * FPC_SCALE / FPC_SCALE == vc;
  }

  lemma SamePenalty(n: nat, a: nat, b: nat)
    ensures n * a == n * b <==> n == 0 || a == b
  {
    if n * a == n * b {
      assert n * (a - b) == 0;
    }
  }

  /**
   * The code charges the constant penalty whatever the setting says. While both sums fit a u64, the estimate
   * is the documented one at every rate if and only if there is no spend to charge for or the setting is the
   * constant.
   */
  lemma PenaltyIgnoredIff(cost: U64, numSpends: U64, penalty: U64)
    requires DocumentedCost(cost, numSpends, penalty) <= U64_MAX && DocumentedCost(cost, numSpends, SPEND_PENALTY_COST) <= U64_MAX
    ensures (forall rate: nat :: FeeAt(VirtualCost(cost, numSpends), rate) == FeeAt(DocumentedCost(cost, numSpends, penalty), rate))
      <==> numSpends == 0 || penalty == SPEND_PENALTY_COST
  {
    var vc, documented := VirtualCost(cost, numSpends), DocumentedCost(cost, numSpends, penalty);
    VirtualCostExactIff(cost, numSpends);
    SamePenalty(numSpends, penalty, SPEND_PENALTY_COST);
    if vc != documented {
      UnitRate(vc);
      UnitRate(documented);
      assert FeeAt(vc, FPC_SCALE) != FeeAt(documented, FPC_SCALE);
    }
  }

  /** One spend, a configured penalty of one, one mojo per unit of cost: 500,000 instead of 1. */
  lemma PenaltyIgnored()
    ensures FeeAt(VirtualCost(0, 1), FPC_SCALE) == 500_000
    ensures FeeAt(DocumentedCost(0, 1, 1), FPC_SCALE) == 1
  {
    UnitRate(500_000);
    UnitRate(1);
  }
}
