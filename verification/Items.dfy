/** The mempool item and its fixed-point fee rate (src/item.rs). */
module Items {
  import opened Prelude

  const FPC_SCALE: nat := 1_000_000_000_000
  const SPEND_PENALTY_COST: nat := 500_000

  /** The bound lies ahead, but at most `protection` blocks ahead. */
  predicate NearExpiry(before: Option<U64>, height: U64, protection: U64) {
    before.Some? && before.value > height && before.value <= SatAdd(height, protection)
  }

  datatype Item = Item(
    id: Id,
    fee: U64, cost: U64, virtualCost: U64, fpc: U128,
    packageFee: U64, packageVirtualCost: U64, packageFpc: U128,
    descendantScore: U128,
    additions: seq<CoinId>, removals: seq<CoinId>,
    heightAdded: U64, numSpends: U64,
    assertHeight: Option<U64>, assertSeconds: Option<U64>,
    assertBeforeHeight: Option<U64>, assertBeforeSeconds: Option<U64>,
    dependsOn: set<Id>, depth: nat,
    launcher: Option<Id>,
    costSaving: U64, effectiveVirtualCost: U64,
    dedupKeys: seq<DedupKey>)
  {
    /** Items are immutable apart from the score, which the pool replaces. */
    function WithScore(score: U128): Item { this.(descendantScore := score) }

    ghost predicate SameButScore(other: Item) { WithScore(0) == other.WithScore(0) }

    /** Close enough to expiry to be shielded from capacity eviction. */
    predicate ExpiryProtected(height: U64, protection: U64) { NearExpiry(assertBeforeHeight, height, protection) }

    predicate Expired(height: U64, timestamp: U64) {
      || (assertBeforeHeight.Some? && assertBeforeHeight.value <= height)
      || (assertBeforeSeconds.Some? && assertBeforeSeconds.value <= timestamp)
    }
  }

  /** Shielded is who expires by height after now and at most `protection` blocks ahead, in plain arithmetic. */
  lemma ProtectedMeans(i: Item, height: U64, protection: U64)
    ensures i.ExpiryProtected(height, protection)
      <==> i.assertBeforeHeight.Some? && height < i.assertBeforeHeight.value <= height + protection
    ensures NearExpiry(i.assertBeforeHeight, height, protection) <==> i.ExpiryProtected(height, protection)
  {
  }

  /** Expired is who has reached one of its upper bounds. */
  lemma ExpiredMeans(i: Item, height: U64, timestamp: U64)
    ensures i.Expired(height, timestamp) <==>
      || (i.assertBeforeHeight.Some? && i.assertBeforeHeight.value <= height)
      || (i.assertBeforeSeconds.Some? && i.assertBeforeSeconds.value <= timestamp)
  {
  }

  function IdsOf(xs: seq<Item>): seq<Id> { seq(|xs|, i requires 0 <= i < |xs| => xs[i].id) }

  /** `fee * FPC_SCALE / virtual_cost` in u128, 0 for a zero cost. */
  function FpcScaled(fee: U64, virtualCost: U64): U128 {
    if virtualCost == 0 then 0 else
      DivLe(fee * FPC_SCALE, virtualCost);
      fee * FPC_SCALE / virtualCost
  }

  lemma MulGrows(d: nat, q: nat)
    requires d > 0
    ensures d * q >= q
  {
    assert d * q == (d - 1) * q + q;
  }

  lemma DivLe(a: nat, d: nat)
    requires d > 0
    ensures a / d <= a
  {
    if a / d >= a + 1 {
      DivIsGreatest(a, d, a + 1);
      MulGrows(d, a + 1);
    }
  }

  lemma DivBounds(a: nat, d: nat)
    requires d > 0
    ensures d * (a / d) <= a < d * (a / d + 1)
  {
    assert a == d * (a / d) + a % d;
    assert d * (a / d + 1) == d * (a / d) + d;
  }

  /** `a / d` is the largest `q` with `d * q <= a`. */
  lemma DivIsGreatest(a: nat, d: nat, q: nat)
    requires d > 0
    ensures q <= a / d <==> d * q <= a
  {
    DivBounds(a, d);
    if q <= a / d {
      assert d * q <= d * (a / d);
    } else {
      assert d * q >= d * (a / d + 1);
    }
  }

  lemma MulMono(a: nat, b: nat, m: nat)
    requires a <= b
    ensures a * m <= b * m
  {
    assert b * m == a * m + (b - a) * m;
  }

  lemma MulStrict(a: nat, b: nat, m: nat)
    requires a * m < b * m
    ensures a < b
  {
    if b <= a {
      MulMono(b, a, m);
    }
  }

  /** The rate is the exact quotient rounded down, and the product it divides always fits a u128. */
  lemma FpcIsFloor(fee: U64, virtualCost: U64)
    requires virtualCost > 0
    ensures fee * FPC_SCALE <= U128_MAX
    ensures virtualCost * FpcScaled(fee, virtualCost) <= fee * FPC_SCALE < virtualCost * (FpcScaled(fee, virtualCost) + 1)
  {
    DivBounds(fee * FPC_SCALE, virtualCost);
  }

  lemma MulSwap(a: nat, b: nat, c: nat)
    ensures a * (b * c) == b * (a * c)
  {
    assert a * (b * c) == (a * b) * c;
    assert b * (a * c) == (b * a) * c;
  }

  lemma MulLess(a: nat, x: nat, y: nat)
    requires a > 0 && x < y
    ensures a * x < a * y
  {
    MulMono(x + 1, y, a);
    assert (x + 1) * a == x * a + a;
  }

  /** Cross-multiplying two bounds by the same `q`. */
  lemma CrossLess(vc: nat, x: nat, otherVc: nat, y: nat, q: nat)
    requires vc > 0 && vc * q <= x && y < otherVc * q
    ensures vc * y < otherVc * x
  {
    MulLess(vc, y, otherVc * q);
    MulMono(vc * q, x, otherVc);
    MulSwap(vc, otherVc, q);
  }

  /** A strictly larger scaled rate is a strictly larger exact rate `fee / virtual_cost`. */
  lemma HigherScaledRateIsHigher(fee: U64, vc: U64, otherFee: U64, otherVc: U64)
    requires vc > 0 && otherVc > 0
    requires FpcScaled(fee, vc) > FpcScaled(otherFee, otherVc)
    ensures fee * otherVc > otherFee * vc
  {
    var q := FpcScaled(fee, vc);
    DivIsGreatest(fee * FPC_SCALE, vc, q);
    DivIsGreatest(otherFee * FPC_SCALE, otherVc, q);
    CrossLess(vc, fee * FPC_SCALE, otherVc, otherFee * FPC_SCALE, q);
    MulStrict(otherFee * vc, fee * otherVc, FPC_SCALE);
  }

  /** `cost + num_spends * SPEND_PENALTY_COST`, wrapping like any plain u64 arithmetic. */
  function VirtualCost(cost: U64, numSpends: U64): U64 {
    Wrap(cost + Wrap(numSpends * SPEND_PENALTY_COST))
  }

  /** The penalty is exact, and every spend makes a bundle dearer, exactly when the u64 sum fits. */
  lemma VirtualCostExactIff(cost: U64, numSpends: U64)
    ensures VirtualCost(cost, numSpends) == cost + numSpends * SPEND_PENALTY_COST
       <==> cost + numSpends * SPEND_PENALTY_COST <= U64_MAX
  {
  }
}
