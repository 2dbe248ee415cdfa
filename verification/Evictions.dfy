/** What capacity eviction promises (`evict_for`, src/pools/active.rs:357-419). */
module Evictions {
  import opened Prelude
  import opened Items
  import opened Sums
  import opened PoolState
  import opened PoolInvariants
  import opened Sorting

  ghost function ScoreKeys(items: map<Id, Item>): map<Id, Key> { map b | b in items :: [items[b].descendantScore] }

  ghost function Shielded(items: map<Id, Item>, height: U64, protection: U64): set<Id> {
    set b | b in items && items[b].ExpiryProtected(height, protection)
  }

  ghost predicate Fits(p: Pool, vc: U64, max: U64) { SatAdd(p.totalCost, vc) <= max }

  /**
   * One pass over `cands`, cheapest snapshotted score first: exactly the first `k` were removed,
   * each while there was no room and each scored below `rate`. The pass gives up at a candidate
   * it may not displace, and otherwise ends with room or with nobody left.
   */
  ghost predicate Squeezed(p: Pool, cands: seq<Id>, k: nat, rate: U128, vc: U64, max: U64, ok: bool) {
    && NoDup(cands) && SortedBy(ScoreKeys(p.items), cands) && k <= |cands|
    && (forall i :: 0 <= i < k ==> p.items[cands[i]].descendantScore < rate)
    && (forall i :: 0 <= i < k ==> !Fits(RemoveSeq(p, cands[..i]), vc, max))
    && (if ok then k == |cands| || Fits(RemoveSeq(p, cands[..k]), vc, max)
        else k < |cands| && !Fits(RemoveSeq(p, cands[..k]), vc, max) && rate <= p.items[cands[k]].descendantScore)
  }

  /** Part-way through a pass: the first `i` candidates are gone, each rightly so. */
  ghost predicate Squeezing(p: Pool, cands: seq<Id>, i: nat, rate: U128, vc: U64, max: U64) {
    && NoDup(cands) && SortedBy(ScoreKeys(p.items), cands) && i <= |cands|
    && (forall j :: 0 <= j < |cands| ==> cands[j] in p.items)
    && (forall j :: 0 <= j < i ==> p.items[cands[j]].descendantScore < rate)
    && (forall j :: 0 <= j < i ==> !Fits(RemoveSeq(p, cands[..j]), vc, max))
  }

  lemma SqueezeEnds(p: Pool, cands: seq<Id>, i: nat, rate: U128, vc: U64, max: U64)
    requires Squeezing(p, cands, i, rate, vc, max)
    ensures i == |cands| || Fits(RemoveSeq(p, cands[..i]), vc, max) ==> Squeezed(p, cands, i, rate, vc, max, true)
    ensures i < |cands| && !Fits(RemoveSeq(p, cands[..i]), vc, max) && rate <= p.items[cands[i]].descendantScore
      ==> Squeezed(p, cands, i, rate, vc, max, false)
  {
  }

  lemma SqueezeOne(p: Pool, cands: seq<Id>, i: nat, rate: U128, vc: U64, max: U64)
    requires Squeezing(p, cands, i, rate, vc, max) && i < |cands|
    requires !Fits(RemoveSeq(p, cands[..i]), vc, max) && p.items[cands[i]].descendantScore < rate
    ensures Squeezing(p, cands, i + 1, rate, vc, max)
    ensures RemoveSeq(p, cands[..i + 1]) == Remove(RemoveSeq(p, cands[..i]), cands[i])
  {
    assert cands[..i + 1] == cands[..i] + [cands[i]];
    RemoveSeqSnoc(p, cands[..i], cands[i]);
  }

  /** Everything a pass may displace. */
  ghost function Cheap(p: Pool, who: set<Id>, rate: U128): set<Id> {
    set b | b in who && b in p.items && p.items[b].descendantScore < rate
  }

  /** Candidates from position `k` on score at least `rate` when the `k`-th does. */
  lemma CheapPrefix(p: Pool, cands: seq<Id>, k: nat, rate: U128, vc: U64, max: U64)
    requires Squeezed(p, cands, k, rate, vc, max, false)
    ensures Cheap(p, Elems(cands), rate) == Elems(cands[..k])
  {
    forall b ensures b in Cheap(p, Elems(cands), rate) <==> b in Elems(cands[..k]) {
      if b in Elems(cands) {
        var j :| 0 <= j < |cands| && cands[j] == b;
        if j < k {
          assert cands[..k][j] == b;
        } else {
          assert AtMost(ScoreKeys(p.items)[cands[k]], ScoreKeys(p.items)[b]) by { LessTotal(ScoreKeys(p.items)[cands[k]], ScoreKeys(p.items)[b]); }
        }
      }
    }
  }

  lemma SqueezedCheap(p: Pool, cands: seq<Id>, k: nat, rate: U128, vc: U64, max: U64, ok: bool)
    requires Squeezed(p, cands, k, rate, vc, max, ok)
    ensures Elems(cands[..k]) <= Cheap(p, Elems(cands), rate)
    ensures NoDup(cands[..k]) && Elems(cands[..k]) <= Elems(cands) <= p.items.Keys
  {
    forall b | b in Elems(cands[..k]) ensures b in Cheap(p, Elems(cands), rate) {
      var i :| 0 <= i < k && cands[..k][i] == b;
      assert cands[i] == b && b in Elems(cands);
    }
  }

  /** A pass makes room exactly when removing every cheaper candidate would. */
  lemma SqueezedIff(p: Pool, cands: seq<Id>, k: nat, rate: U128, vc: U64, max: U64, ok: bool)
    requires Counted(p) && Squeezed(p, cands, k, rate, vc, max, ok) && max < U64_MAX
    ensures Fits(RemoveSeq(p, cands[..k]), vc, max)
       <==> p.totalCost - Sum(Costs(p.items), Cheap(p, Elems(cands), rate)) + vc <= max
  {
    var gone, cheap := Elems(cands[..k]), Cheap(p, Elems(cands), rate);
    SqueezedCheap(p, cands, k, rate, vc, max, ok);
    RemoveSeqCost(p, cands[..k]);
    SumMono(Costs(p.items), gone, cheap);
    if !Fits(RemoveSeq(p, cands[..k]), vc, max) {
      if ok {
        assert cands[..k] == cands;
      } else {
        CheapPrefix(p, cands, k, rate, vc, max);
      }
      assert gone == cheap;
    }
  }

  /** A pass begun rightly can always be finished. */
  lemma {:induction false} SqueezeRuns(p: Pool, cands: seq<Id>, i: nat, rate: U128, vc: U64, max: U64) returns (k: nat, ok: bool)
    requires Squeezing(p, cands, i, rate, vc, max)
    ensures i <= k && Squeezed(p, cands, k, rate, vc, max, ok)
    decreases |cands| - i
  {
    SqueezeEnds(p, cands, i, rate, vc, max);
    if i == |cands| || Fits(RemoveSeq(p, cands[..i]), vc, max) {
      k, ok := i, true;
    } else if rate <= p.items[cands[i]].descendantScore {
      k, ok := i, false;
    } else {
      SqueezeOne(p, cands, i, rate, vc, max);
      k, ok := SqueezeRuns(p, cands, i + 1, rate, vc, max);
    }
  }

  // ── Both passes ──

  /** How one call went: candidates of each pass in order, and how many of them were removed. */
  datatype Eviction = Eviction(exposed: seq<Id>, k: nat, exposedOk: bool, shielded: seq<Id>, m: nat, shieldedOk: bool)

  ghost function First(w: Eviction): seq<Id>
    requires w.k <= |w.exposed|
  {
    w.exposed[..w.k]
  }

  ghost function Evicted(w: Eviction): seq<Id>
    requires w.k <= |w.exposed| && w.m <= |w.shielded|
  {
    w.exposed[..w.k] + w.shielded[..w.m]
  }

  /** Pass 1 ended without refusal, still without room, and the newcomer may displace shielded items. */
  ghost predicate SecondPass(p: Pool, item: Item, max: U64, height: U64, protection: U64, w: Eviction)
    requires w.k <= |w.exposed|
  {
    w.exposedOk && !Fits(RemoveSeq(p, First(w)), item.virtualCost, max) && item.ExpiryProtected(height, protection)
  }

  /** The contract of `evict_for`, for every tie-breaking order. */
  ghost predicate EvictedFor(p: Pool, item: Item, max: U64, height: U64, protection: U64, w: Eviction, ok: bool) {
    && w.k <= |w.exposed| && w.m <= |w.shielded|
    && (if item.virtualCost > max then !ok && w.k == 0 && w.m == 0 else
        var vc, rate := item.virtualCost, item.fpc;
        var q := RemoveSeq(p, First(w));
        && Elems(w.exposed) == p.items.Keys - Shielded(p.items, height, protection)
        && Squeezed(p, w.exposed, w.k, rate, vc, max, w.exposedOk)
        && (if SecondPass(p, item, max, height, protection, w) then
              && Elems(w.shielded) == Shielded(q.items, height, protection)
              && Squeezed(q, w.shielded, w.m, rate, vc, max, w.shieldedOk)
              && ok == Fits(RemoveSeq(q, w.shielded[..w.m]), vc, max)
            else
              && w.m == 0
              && ok == Fits(q, vc, max)))
  }

  lemma ShieldedAfter(p: Pool, ids: seq<Id>, height: U64, protection: U64)
    ensures Shielded(RemoveSeq(p, ids).items, height, protection) == Shielded(p.items, height, protection) - Elems(ids)
  {
    var q := RemoveSeq(p, ids);
    RemoveSeqItems(p, ids);
    forall b | b in q.items ensures q.items[b].assertBeforeHeight == p.items[b].assertBeforeHeight {
      assert q.items[b].SameButScore((p.items - Elems(ids))[b]);
    }
  }

  /** Every first pass belongs to some whole call. */
  lemma CallExists(p: Pool, item: Item, max: U64, height: U64, protection: U64, xs: seq<Id>, k: nat, passed: bool)
    returns (w: Eviction, ok: bool)
    requires item.virtualCost <= max && Elems(xs) == p.items.Keys - Shielded(p.items, height, protection)
    requires Squeezed(p, xs, k, item.fpc, item.virtualCost, max, passed)
    ensures EvictedFor(p, item, max, height, protection, w, ok) && w.exposed == xs && w.k == k
  {
    var q := RemoveSeq(p, xs[..k]);
    w := Eviction(xs, k, passed, [], 0, true);
    ok := Fits(q, item.virtualCost, max);
    if passed && !ok && item.ExpiryProtected(height, protection) {
      var ys := SortedExists(ScoreKeys(q.items), Shielded(q.items, height, protection));
      SqueezeStarts(q, ys, item.fpc, item.virtualCost, max);
      var m, through := SqueezeRuns(q, ys, 0, item.fpc, item.virtualCost, max);
      w := Eviction(xs, k, passed, ys, m, through);
      ok := Fits(RemoveSeq(q, ys[..m]), item.virtualCost, max);
    }
  }

  lemma SqueezeStarts(p: Pool, cands: seq<Id>, rate: U128, vc: U64, max: U64)
    requires NoDup(cands) && SortedBy(ScoreKeys(p.items), cands)
    ensures Squeezing(p, cands, 0, rate, vc, max)
  {
    assert forall j :: 0 <= j < |cands| ==> cands[j] in Elems(cands);
  }

  // ── When nobody is displaced ──

  /** A pass removes nobody exactly when there is room already or nobody cheaper. */
  lemma SqueezedNoneIff(p: Pool, cands: seq<Id>, k: nat, rate: U128, vc: U64, max: U64, ok: bool)
    requires Squeezed(p, cands, k, rate, vc, max, ok)
    ensures k == 0 <==> Fits(p, vc, max) || Cheap(p, Elems(cands), rate) == {}
    ensures k == 0 && !Fits(p, vc, max) ==> (ok <==> cands == [])
  {
    assert cands[..0] == [] && RemoveSeq(p, cands[..0]) == p;
    SqueezedCheap(p, cands, k, rate, vc, max, ok);
    if k > 0 {
      assert cands[..k][0] in Elems(cands[..k]);
    } else if !ok {
      CheapPrefix(p, cands, k, rate, vc, max);
      ElemsEmpty(cands[..0]);
    } else {
      ElemsEmpty(cands);
    }
  }

  /** Known before the call: room, a hopeless size, or nobody the newcomer may displace. */
  ghost predicate NobodyToDisplace(p: Pool, vc: U64, rate: U128, nearExpiry: bool, max: U64, height: U64, protection: U64) {
    var shielded := Shielded(p.items, height, protection);
    var exposed := p.items.Keys - shielded;
    || Fits(p, vc, max)
    || vc > max
    || (exposed != {} && Cheap(p, exposed, rate) == {})
    || (exposed == {} && (nearExpiry ==> Cheap(p, shielded, rate) == {}))
  }

  /** The call displaces nobody exactly then. */
  lemma DisplacesNobodyIff(p: Pool, item: Item, max: U64, height: U64, protection: U64, w: Eviction, ok: bool)
    requires EvictedFor(p, item, max, height, protection, w, ok)
    ensures Evicted(w) == []
       <==> NobodyToDisplace(p, item.virtualCost, item.fpc, item.ExpiryProtected(height, protection), max, height, protection)
  {
    if item.virtualCost <= max {
      SqueezedNoneIff(p, w.exposed, w.k, item.fpc, item.virtualCost, max, w.exposedOk);
      ElemsEmpty(w.exposed);
      if w.k == 0 {
        assert First(w) == [] && RemoveSeq(p, First(w)) == p;
        if SecondPass(p, item, max, height, protection, w) {
          SqueezedNoneIff(p, w.shielded, w.m, item.fpc, item.virtualCost, max, w.shieldedOk);
        }
      }
    }
  }

  /** Whoever is displaced was snapshotted strictly below the newcomer's own rate. */
  lemma DisplacedWereCheaper(p: Pool, item: Item, max: U64, height: U64, protection: U64, w: Eviction, ok: bool)
    requires EvictedFor(p, item, max, height, protection, w, ok)
    ensures forall b :: b in w.exposed[..w.k] ==> b in p.items && p.items[b].descendantScore < item.fpc
    ensures forall b :: b in w.shielded[..w.m] ==>
      b in RemoveSeq(p, First(w)).items && RemoveSeq(p, First(w)).items[b].descendantScore < item.fpc
  {
    if item.virtualCost <= max {
      SqueezedCheap(p, w.exposed, w.k, item.fpc, item.virtualCost, max, w.exposedOk);
      assert forall b :: b in w.exposed[..w.k] ==> b in Elems(w.exposed[..w.k]);
      if SecondPass(p, item, max, height, protection, w) {
        SqueezedCheap(RemoveSeq(p, First(w)), w.shielded, w.m, item.fpc, item.virtualCost, max, w.shieldedOk);
        assert forall b :: b in w.shielded[..w.m] ==> b in Elems(w.shielded[..w.m]);
      }
    }
  }

  /** Shielded items suffer only for a shielded newcomer, and only once every exposed item is gone. */
  lemma ShieldHolds(p: Pool, item: Item, max: U64, height: U64, protection: U64, w: Eviction, ok: bool, b: Id)
    requires EvictedFor(p, item, max, height, protection, w, ok)
    requires b in p.items && p.items[b].ExpiryProtected(height, protection) && b in Evicted(w)
    ensures item.ExpiryProtected(height, protection)
    ensures forall x :: x in p.items && !p.items[x].ExpiryProtected(height, protection) ==> x in Evicted(w)
  {
    ElemsConcat(w.exposed[..w.k], w.shielded[..w.m]);
    assert b in Elems(Evicted(w));
    assert forall x :: x in w.exposed[..w.k] ==> x in Elems(w.exposed);
    assert b in Shielded(p.items, height, protection);
    assert w.exposed[..|w.exposed|] == w.exposed;
    forall x | x in p.items && !p.items[x].ExpiryProtected(height, protection) ensures x in Evicted(w) {
      assert x in Elems(w.exposed);
      assert x in w.exposed[..w.k];
    }
  }

  /** Evictions stop at the first point where the newcomer fits. */
  lemma StopsWhenItFits(p: Pool, item: Item, max: U64, height: U64, protection: U64, w: Eviction, ok: bool, i: nat)
    requires EvictedFor(p, item, max, height, protection, w, ok) && i < |Evicted(w)|
    ensures !Fits(RemoveSeq(p, Evicted(w)[..i]), item.virtualCost, max)
  {
    if i < w.k {
      assert Evicted(w)[..i] == w.exposed[..i];
    } else {
      assert Evicted(w)[..i] == First(w) + w.shielded[..i - w.k];
      RemoveSeqConcat(p, First(w), w.shielded[..i - w.k]);
    }
  }

  /** On success there is room; the call removes the listed ids and nothing else either way. */
  lemma SuccessMeansRoom(p: Pool, item: Item, max: U64, height: U64, protection: U64, w: Eviction)
    requires EvictedFor(p, item, max, height, protection, w, true)
    ensures item.virtualCost <= max
    ensures Fits(RemoveSeq(p, Evicted(w)), item.virtualCost, max)
  {
    RemoveSeqConcat(p, First(w), w.shielded[..w.m]);
    if w.m == 0 { assert Evicted(w) == First(w); }
  }

  /** An unshielded newcomer is let in exactly when displacing every cheaper exposed item makes room. */
  lemma LetInIff(p: Pool, item: Item, max: U64, height: U64, protection: U64, w: Eviction, ok: bool)
    requires Counted(p) && max < U64_MAX
    requires EvictedFor(p, item, max, height, protection, w, ok) && !item.ExpiryProtected(height, protection)
    ensures var exposed := p.items.Keys - Shielded(p.items, height, protection);
      ok <==> (item.virtualCost <= max
               && p.totalCost - Sum(Costs(p.items), Cheap(p, exposed, item.fpc)) + item.virtualCost <= max)
  {
    if item.virtualCost <= max {
      SqueezedIff(p, w.exposed, w.k, item.fpc, item.virtualCost, max, w.exposedOk);
    }
  }

  /** Those of `who` that are left without `gone` and then score below `rate`. */
  ghost function CheapWithout(p: Pool, gone: set<Id>, who: set<Id>, rate: nat): set<Id> {
    set b | b in p.items && b in who && b !in gone && ScoreWithout(p, gone, b) < rate
  }

  lemma CheapAfter(p: Pool, ids: seq<Id>, who: set<Id>, rate: U128)
    requires Edged(p)
    ensures Cheap(RemoveSeq(p, ids), who, rate) == CheapWithout(p, Elems(ids), who, rate)
  {
    var q := RemoveSeq(p, ids);
    RemoveSeqKeys(p, ids);
    forall b | b in q.items ensures b in p.items && q.items[b].descendantScore == ScoreWithout(p, Elems(ids), b) {
      RemoveSeqScore(p, ids, b);
    }
  }

  /** Room left once `cheap` is gone too. */
  lemma SumAfter(p: Pool, ids: seq<Id>, cheap: set<Id>)
    requires Counted(p) && Elems(ids) <= p.items.Keys && cheap <= RemoveSeq(p, ids).items.Keys
    ensures Elems(ids) + cheap <= p.items.Keys
    ensures var q := RemoveSeq(p, ids);
      q.totalCost - Sum(Costs(q.items), cheap) == p.totalCost - Sum(Costs(p.items), Elems(ids) + cheap)
  {
    var q := RemoveSeq(p, ids);
    RemoveSeqKeys(p, ids);
    RemoveSeqCost(p, ids);
    RemoveSeqItems(p, ids);
    AlikeSums(q.items, p.items - Elems(ids));
    DropCosts(p.items, Elems(ids));
    SumAgree(Costs(q.items), Costs(p.items), cheap);
    SumUnion(Costs(p.items), Elems(ids), cheap);
  }

  /** What the second pass could free, as an amount known before the call. */
  lemma SecondRoom(p: Pool, ids: seq<Id>, height: U64, protection: U64, rate: U128)
    requires Edged(p) && Counted(p) && Elems(ids) == p.items.Keys - Shielded(p.items, height, protection)
    ensures var q, cheap := RemoveSeq(p, ids), CheapWithout(p, Elems(ids), Shielded(p.items, height, protection), rate);
      && Elems(ids) + cheap <= p.items.Keys
      && cheap == Cheap(q, Shielded(q.items, height, protection), rate) <= q.items.Keys
      && q.totalCost - Sum(Costs(q.items), cheap) == p.totalCost - Sum(Costs(p.items), Elems(ids) + cheap)
  {
    var q, cheap := RemoveSeq(p, ids), CheapWithout(p, Elems(ids), Shielded(p.items, height, protection), rate);
    ShieldedAfter(p, ids, height, protection);
    CheapAfter(p, ids, Shielded(p.items, height, protection), rate);
    RemoveSeqKeys(p, ids);
    SumAfter(p, ids, cheap);
  }

  /**
   * A shielded newcomer is let in exactly when displacing every cheaper exposed item makes room, or
   * all exposed items are cheaper and displacing them and every shielded item then cheaper does.
   */
  lemma ShieldedLetInIff(p: Pool, item: Item, max: U64, height: U64, protection: U64, w: Eviction, ok: bool)
    requires Edged(p) && Counted(p) && max < U64_MAX
    requires EvictedFor(p, item, max, height, protection, w, ok) && item.ExpiryProtected(height, protection)
    ensures var exposed := p.items.Keys - Shielded(p.items, height, protection);
      var cheap, late := Cheap(p, exposed, item.fpc), CheapWithout(p, exposed, Shielded(p.items, height, protection), item.fpc);
      ok <==> item.virtualCost <= max
              && (|| p.totalCost - Sum(Costs(p.items), cheap) + item.virtualCost <= max
                  || (cheap == exposed && p.totalCost - Sum(Costs(p.items), exposed + late) + item.virtualCost <= max))
  {
    if item.virtualCost <= max {
      SqueezedIff(p, w.exposed, w.k, item.fpc, item.virtualCost, max, w.exposedOk);
      if !Fits(RemoveSeq(p, First(w)), item.virtualCost, max) {
        SecondPassIff(p, item, max, height, protection, w, ok);
      }
    }
  }

  /** Once all exposed items are gone, the second pass decides. */
  lemma AfterExposed(p: Pool, item: Item, max: U64, height: U64, protection: U64, w: Eviction, ok: bool)
    requires Edged(p) && Counted(p) && max < U64_MAX && item.virtualCost <= max && w.exposedOk
    requires EvictedFor(p, item, max, height, protection, w, ok) && item.ExpiryProtected(height, protection)
    requires !Fits(RemoveSeq(p, First(w)), item.virtualCost, max)
    ensures First(w) == w.exposed
    ensures var exposed := p.items.Keys - Shielded(p.items, height, protection);
      var late := CheapWithout(p, exposed, Shielded(p.items, height, protection), item.fpc);
      ok <==> p.totalCost - Sum(Costs(p.items), exposed + late) + item.virtualCost <= max
  {
    assert First(w) == w.exposed;
    var q := RemoveSeq(p, w.exposed);
    SecondRoom(p, w.exposed, height, protection, item.fpc);
    RemoveSeqCounted(p, w.exposed);
    SqueezedIff(q, w.shielded, w.m, item.fpc, item.virtualCost, max, w.shieldedOk);
  }

  /** Without room after the first pass: it was refused there, or all exposed items are gone. */
  lemma SecondPassIff(p: Pool, item: Item, max: U64, height: U64, protection: U64, w: Eviction, ok: bool)
    requires Edged(p) && Counted(p) && max < U64_MAX && item.virtualCost <= max
    requires EvictedFor(p, item, max, height, protection, w, ok) && item.ExpiryProtected(height, protection)
    requires !Fits(RemoveSeq(p, First(w)), item.virtualCost, max)
    ensures var exposed := p.items.Keys - Shielded(p.items, height, protection);
      var late := CheapWithout(p, exposed, Shielded(p.items, height, protection), item.fpc);
      ok <==> Cheap(p, exposed, item.fpc) == exposed
              && p.totalCost - Sum(Costs(p.items), exposed + late) + item.virtualCost <= max
  {
    if w.exposedOk {
      SqueezedCheap(p, w.exposed, w.k, item.fpc, item.virtualCost, max, w.exposedOk);
      AfterExposed(p, item, max, height, protection, w, ok);
    } else {
      assert w.exposed[w.k] in Elems(w.exposed) && w.exposed[w.k] !in Cheap(p, Elems(w.exposed), item.fpc);
    }
  }
}
