/**
 * Who is displaced whatever order hash maps are walked in and ties are broken in, and when a displacement
 * leaves no child behind (src/pools/active.rs:357-419, src/mempool/submit.rs:815-907).
 */
module Sparing {
  import opened Prelude
  import opened Items
  import opened Sums
  import opened Graph
  import opened Sorting
  import opened PoolState
  import opened PoolInvariants
  import opened Cascades
  import opened Evictions
  import opened Rbf
  import opened Admission
  import opened Admitted
  import opened Survival

  // ── One pass ──

  /** Everyone else in the pass who scores no more than `x`. */
  ghost function UpTo(p: Pool, who: set<Id>, x: Id): set<Id>
    requires x in p.items
  {
    set y | y in who && y in p.items && y != x && p.items[y].descendantScore <= p.items[x].descendantScore
  }

  /** Cheap enough, and wanted even when everyone else up to its score has gone. */
  ghost predicate MustGo(p: Pool, who: set<Id>, rate: U128, vc: U64, max: U64, x: Id)
    requires x in p.items
  {
    p.items[x].descendantScore < rate && !Roomy(p, UpTo(p, who, x), vc, max)
  }

  lemma BeforeIsUpTo(p: Pool, cands: seq<Id>, k: nat, i: nat)
    requires SortedBy(ScoreKeys(p.items), cands) && NoDup(cands) && k <= i < |cands| && cands[i] in p.items
    ensures Elems(cands[..k]) <= UpTo(p, Elems(cands), cands[i])
    ensures forall j :: 0 <= j <= i ==> cands[j] in p.items && p.items[cands[j]].descendantScore <= p.items[cands[i]].descendantScore
  {
    forall j | 0 <= j <= i ensures cands[j] in p.items && p.items[cands[j]].descendantScore <= p.items[cands[i]].descendantScore {
      assert cands[j] in Elems(cands);
      if j < i {
        assert AtMost(ScoreKeys(p.items)[cands[j]], ScoreKeys(p.items)[cands[i]]);
        LessOne(p.items[cands[i]].descendantScore, p.items[cands[j]].descendantScore);
      }
    }
    forall y | y in Elems(cands[..k]) ensures y in UpTo(p, Elems(cands), cands[i]) {
      var j :| 0 <= j < k && cands[..k][j] == y;
      assert cands[j] == y && y in Elems(cands);
    }
  }

  lemma NotRoomyNotFit(p: Pool, cands: seq<Id>, k: nat, s: set<Id>, vc: U64, max: U64)
    requires Counted(p) && SortedBy(ScoreKeys(p.items), cands) && k <= |cands| && Elems(cands[..k]) <= s && !Roomy(p, s, vc, max)
    requires max < U64_MAX
    ensures !Fits(RemoveSeq(p, cands[..k]), vc, max)
  {
    RemovedUpTo(p, cands, k);
    SumMono(Costs(p.items), Elems(cands[..k]), s * p.items.Keys);
  }

  lemma PassMustTake(p: Pool, cands: seq<Id>, k: nat, rate: U128, vc: U64, max: U64, ok: bool, x: Id)
    requires Counted(p) && max < U64_MAX && Squeezed(p, cands, k, rate, vc, max, ok) && x in cands
    requires x in p.items && MustGo(p, Elems(cands), rate, vc, max, x)
    ensures x in cands[..k]
  {
    var i :| 0 <= i < |cands| && cands[i] == x;
    if i < k {
      assert cands[..k][i] == x;
    } else {
      BeforeIsUpTo(p, cands, k, i);
      NotRoomyNotFit(p, cands, k, UpTo(p, Elems(cands), x), vc, max);
    }
  }

  /** When all are cheap and do not make room together, the pass takes them all. */
  lemma PassTakesEach(p: Pool, cands: seq<Id>, k: nat, rate: U128, vc: U64, max: U64, ok: bool)
    requires Counted(p) && max < U64_MAX && Squeezed(p, cands, k, rate, vc, max, ok)
    requires Cheap(p, Elems(cands), rate) == Elems(cands) && !Roomy(p, Elems(cands), vc, max)
    ensures k == |cands| && ok && cands[..k] == cands && !Fits(RemoveSeq(p, cands), vc, max)
  {
    PrefixWithin(cands, k);
    NotRoomyNotFit(p, cands, k, Elems(cands), vc, max);
    assert forall i :: 0 <= i < |cands| ==> cands[i] in Elems(cands);
  }

  /** Placed last among its equals, whoever need not go does not. */
  lemma LastSpared(p: Pool, xs: seq<Id>, b: Id, x: Id, k: nat, rate: U128, vc: U64, max: U64, ok: bool)
    requires Counted(p) && max < U64_MAX && Squeezed(p, xs, k, rate, vc, max, ok) && SortedBy(TieKeys(p.items, b, x), xs)
    requires x in xs && x != b && x in p.items && !MustGo(p, Elems(xs), rate, vc, max, x)
    ensures x !in xs[..k]
  {
    var i :| 0 <= i < |xs| && xs[i] == x;
    forall j | 0 <= j < |xs| ensures j < i <==> xs[j] in UpTo(p, Elems(xs), x) {
      TiesLast(p.items, b, x, xs, i, j);
      assert xs[j] in Elems(xs);
    }
    PrefixIs(xs, i, UpTo(p, Elems(xs), x));
    RemovedUpTo(p, xs, i);
    assert UpTo(p, Elems(xs), x) * p.items.Keys == UpTo(p, Elems(xs), x);
  }

  /** Some order takes `b` and spares `x`, unless `x` scores less or must go. */
  lemma PassSpares(p: Pool, who: set<Id>, rate: U128, vc: U64, max: U64, b: Id, x: Id) returns (xs: seq<Id>, k: nat, ok: bool)
    requires Counted(p) && max < U64_MAX && b in who && x in who && b != x && who <= p.items.Keys
    requires p.items[b].descendantScore < rate && !Roomy(p, Cheap(p, who, p.items[b].descendantScore), vc, max)
    requires !MustGo(p, who, rate, vc, max, x)
    ensures Elems(xs) == who && Squeezed(p, xs, k, rate, vc, max, ok) && b in xs[..k] && x !in xs[..k]
  {
    var i;
    xs, i := TiesAfter(p, who, b, x);
    assert Cheap(p, who, p.items[b].descendantScore) * p.items.Keys == Cheap(p, who, p.items[b].descendantScore);
    CheaperFirst(p, xs, i, rate, vc, max);
    k, ok := SqueezeRuns(p, xs, i + 1, rate, vc, max);
    assert xs[..k][i] == b && x in Elems(xs);
    LastSpared(p, xs, b, x, k, rate, vc, max, ok);
  }

  /** Some order spares `x`, unless it must go. */
  lemma PassSparesOne(p: Pool, who: set<Id>, rate: U128, vc: U64, max: U64, x: Id) returns (xs: seq<Id>, k: nat, ok: bool)
    requires Counted(p) && max < U64_MAX && x in who && who <= p.items.Keys && !MustGo(p, who, rate, vc, max, x)
    ensures NoDup(xs) && Elems(xs) == who && Squeezed(p, xs, k, rate, vc, max, ok) && x !in xs[..k]
  {
    xs := SortedExists(TieKeys(p.items, x + 1, x), who);
    TiesByScore(p.items, x + 1, x, xs);
    SqueezeStarts(p, xs, rate, vc, max);
    k, ok := SqueezeRuns(p, xs, 0, rate, vc, max);
    assert x in Elems(xs);
    LastSpared(p, xs, x + 1, x, k, rate, vc, max, ok);
  }

  // ── One call ──

  ghost function UpToWithout(p: Pool, gone: set<Id>, who: set<Id>, x: Id): set<Id>
    requires x in p.items
  {
    set y | y in p.items && y in who && y !in gone && y != x && ScoreWithout(p, gone, y) <= ScoreWithout(p, gone, x)
  }

  ghost predicate ExposedDoomed(p: Pool, gone: set<Id>, n: Demand, x: Id)
    requires x in p.items
  {
    && n.cost <= n.max && ScoreWithout(p, gone, x) < n.rate
    && !Roomy(p, gone + UpToWithout(p, gone, Exposed(p, n), x), n.cost, n.max)
  }

  ghost predicate GuardedDoomed(p: Pool, gone: set<Id>, n: Demand, x: Id)
    requires x in p.items
  {
    var all := gone + Exposed(p, n);
    && n.cost <= n.max && ScoreWithout(p, all, x) < n.rate
    && n.nearExpiry && CheapWithout(p, gone, Exposed(p, n), n.rate) == Exposed(p, n) - gone
    && !Roomy(p, all + UpToWithout(p, all, Guarded(p, n), x), n.cost, n.max)
  }

  /** Once `gone` is gone, `x` is displaced under every order: even as the last of its equals it has to go. */
  ghost predicate Doomed(p: Pool, gone: set<Id>, n: Demand, x: Id)
    requires x in p.items
  {
    if x in Exposed(p, n) then ExposedDoomed(p, gone, n, x) else GuardedDoomed(p, gone, n, x)
  }

  lemma ExposedDoomedNow(p: Pool, n: Demand, x: Id)
    requires x in p.items
    ensures ExposedDoomed(p, {}, n, x) <==> n.cost <= n.max && MustGo(p, Exposed(p, n), n.rate, n.cost, n.max, x)
  {
    NobodyGone(p);
    assert {} + UpToWithout(p, {}, Exposed(p, n), x) == UpTo(p, Exposed(p, n), x);
  }

  lemma UpToAfter(p: Pool, ids: seq<Id>, who: set<Id>, x: Id)
    requires Edged(p) && x in RemoveSeq(p, ids).items
    ensures x in p.items && UpTo(RemoveSeq(p, ids), who, x) == UpToWithout(p, Elems(ids), who, x)
  {
    var q := RemoveSeq(p, ids);
    RemoveSeqKeys(p, ids);
    forall b | b in q.items ensures b in p.items && q.items[b].descendantScore == ScoreWithout(p, Elems(ids), b) {
      RemoveSeqScore(p, ids, b);
    }
  }

  /** With the exposed items `xs` gone. */
  lemma GuardedDoomedNow(p: Pool, n: Demand, xs: seq<Id>, x: Id)
    requires Edged(p) && Counted(p) && x in Guarded(p, n) && Elems(xs) == Exposed(p, n)
    ensures var q := RemoveSeq(p, xs);
      && x in p.items && x in q.items && Shielded(q.items, n.height, n.protection) == Guarded(p, n)
      && (GuardedDoomed(p, {}, n, x) <==>
            && n.cost <= n.max && n.nearExpiry && Cheap(p, Exposed(p, n), n.rate) == Exposed(p, n)
            && MustGo(q, Guarded(p, n), n.rate, n.cost, n.max, x))
  {
    var q, all := RemoveSeq(p, xs), Exposed(p, n);
    WithoutExposed(p, n, xs, x);
    UpToAfter(p, xs, Guarded(p, n), x);
    RoomyAfter(p, xs, UpTo(q, Guarded(p, n), x), n.cost, n.max);
    NobodyGone(p);
    assert {} + all == all && all - {} == all;
  }

  lemma DoomedRanOut(p: Pool, n: Demand, x: Id)
    requires x in p.items && GuardedDoomed(p, {}, n, x)
    ensures Cheap(p, Exposed(p, n), n.rate) == Exposed(p, n) && !Roomy(p, Exposed(p, n), n.cost, n.max)
  {
    NobodyGone(p);
    var all := {} + Exposed(p, n);
    assert all == Exposed(p, n) && Exposed(p, n) - {} == Exposed(p, n);
    if Roomy(p, Exposed(p, n), n.cost, n.max) { RoomyMono(p, all, all + UpToWithout(p, all, Guarded(p, n), x), n.cost, n.max); }
  }

  lemma ExposedFalls(p: Pool, item: Item, max: U64, height: U64, protection: U64, w: Eviction, ok: bool, x: Id)
    requires Counted(p) && max < U64_MAX && EvictedFor(p, item, max, height, protection, w, ok)
    requires x in Exposed(p, DemandOf(item, max, height, protection)) && ExposedDoomed(p, {}, DemandOf(item, max, height, protection), x)
    ensures x in Evicted(w)
  {
    ExposedDoomedNow(p, DemandOf(item, max, height, protection), x);
    assert x in Elems(w.exposed);
    PassMustTake(p, w.exposed, w.k, item.fpc, item.virtualCost, max, w.exposedOk, x);
  }

  lemma GuardedFalls(p: Pool, item: Item, max: U64, height: U64, protection: U64, w: Eviction, ok: bool, x: Id)
    requires Edged(p) && Counted(p) && max < U64_MAX && EvictedFor(p, item, max, height, protection, w, ok)
    requires x in Guarded(p, DemandOf(item, max, height, protection)) && GuardedDoomed(p, {}, DemandOf(item, max, height, protection), x)
    ensures x in Evicted(w)
  {
    var n := DemandOf(item, max, height, protection);
    DoomedRanOut(p, n, x);
    PassTakesEach(p, w.exposed, w.k, item.fpc, item.virtualCost, max, w.exposedOk);
    var q := RemoveSeq(p, w.exposed);
    assert First(w) == w.exposed && SecondPass(p, item, max, height, protection, w);
    GuardedDoomedNow(p, n, w.exposed, x);
    RemoveSeqCounted(p, w.exposed);
    assert x in Elems(w.shielded);
    PassMustTake(q, w.shielded, w.m, item.fpc, item.virtualCost, max, w.shieldedOk, x);
  }

  lemma DoomedFalls(p: Pool, item: Item, max: U64, height: U64, protection: U64, w: Eviction, ok: bool, x: Id)
    requires Edged(p) && Counted(p) && max < U64_MAX && EvictedFor(p, item, max, height, protection, w, ok)
    requires x in p.items && Doomed(p, {}, DemandOf(item, max, height, protection), x)
    ensures x in Evicted(w)
  {
    if x in Exposed(p, DemandOf(item, max, height, protection)) {
      ExposedFalls(p, item, max, height, protection, w, ok, x);
    } else {
      GuardedFalls(p, item, max, height, protection, w, ok, x);
    }
  }

  /** Both exposed. */
  lemma ExposedApart(p: Pool, item: Item, max: U64, height: U64, protection: U64, b: Id, x: Id) returns (w: Eviction, ok: bool)
    requires Counted(p) && max < U64_MAX && b != x
    requires var n := DemandOf(item, max, height, protection);
      && b in Exposed(p, n) && x in Exposed(p, n) && !ExposedSecure(p, {}, n, b) && !ExposedDoomed(p, {}, n, x)
    ensures EvictedFor(p, item, max, height, protection, w, ok) && b in Evicted(w) && x !in Evicted(w)
  {
    var n := DemandOf(item, max, height, protection);
    ExposedSecureNow(p, n, b);
    ExposedDoomedNow(p, n, x);
    var xs, k, passed := PassSpares(p, Exposed(p, n), item.fpc, item.virtualCost, max, b, x);
    w, ok := CallExists(p, item, max, height, protection, xs, k, passed);
    OnlyFirst(p, item, max, height, protection, w, ok, x);
  }

  lemma OnlyFirst(p: Pool, item: Item, max: U64, height: U64, protection: U64, w: Eviction, ok: bool, x: Id)
    requires EvictedFor(p, item, max, height, protection, w, ok) && x in Exposed(p, DemandOf(item, max, height, protection)) && x !in First(w)
    ensures x !in Evicted(w)
  {
    ShieldedAfter(p, First(w), height, protection);
    assert forall y :: y in w.shielded[..w.m] ==> y in Elems(w.shielded);
  }

  /** Exposed items alone: the second pass can leave `x` out. */
  lemma ExposedOnly(p: Pool, item: Item, max: U64, height: U64, protection: U64, b: Id, x: Id) returns (w: Eviction, ok: bool)
    requires Edged(p) && Counted(p) && max < U64_MAX
    requires var n := DemandOf(item, max, height, protection);
      && b in Exposed(p, n) && !ExposedSecure(p, {}, n, b) && x in p.items && x in Guarded(p, n) && !GuardedDoomed(p, {}, n, x)
    ensures EvictedFor(p, item, max, height, protection, w, ok) && b in Evicted(w) && x !in Evicted(w)
  {
    var n := DemandOf(item, max, height, protection);
    if GuardedSecure(p, {}, n, x) {
      w, ok := ExposedEvicted(p, item, max, height, protection, b);
      if x in Evicted(w) { EvictedInsecure(p, item, max, height, protection, w, ok, x); }
    } else {
      var xs := AllExposedGo(p, n, x);
      w, ok := SecondSpares(p, item, max, height, protection, xs, x);
      assert b in Elems(xs);
    }
  }

  lemma SecondSpares(p: Pool, item: Item, max: U64, height: U64, protection: U64, xs: seq<Id>, x: Id) returns (w: Eviction, ok: bool)
    requires Edged(p) && Counted(p) && max < U64_MAX
    requires var n := DemandOf(item, max, height, protection);
      && x in p.items && x in Guarded(p, n) && !GuardedSecure(p, {}, n, x) && !GuardedDoomed(p, {}, n, x)
      && Elems(xs) == Exposed(p, n) && Squeezed(p, xs, |xs|, n.rate, n.cost, n.max, true) && !Fits(RemoveSeq(p, xs), n.cost, n.max)
    ensures EvictedFor(p, item, max, height, protection, w, ok) && w.k == |xs| && w.exposed == xs && x !in Evicted(w)
  {
    var n := DemandOf(item, max, height, protection);
    GuardedSecureNow(p, n, xs, x);
    GuardedDoomedNow(p, n, xs, x);
    RemoveSeqCounted(p, xs);
    var q := RemoveSeq(p, xs);
    var ys, m, passed := PassSparesOne(q, Guarded(p, n), item.fpc, item.virtualCost, max, x);
    w, ok := BothPasses(p, item, max, height, protection, xs, ys, m, passed);
    assert x !in Elems(xs);
  }

  lemma BothPasses(p: Pool, item: Item, max: U64, height: U64, protection: U64, xs: seq<Id>, ys: seq<Id>, m: nat, passed: bool)
    returns (w: Eviction, ok: bool)
    requires item.virtualCost <= max && item.ExpiryProtected(height, protection)
    requires Elems(xs) == p.items.Keys - Shielded(p.items, height, protection)
    requires Squeezed(p, xs, |xs|, item.fpc, item.virtualCost, max, true) && !Fits(RemoveSeq(p, xs), item.virtualCost, max)
    requires Elems(ys) == Shielded(RemoveSeq(p, xs).items, height, protection)
    requires Squeezed(RemoveSeq(p, xs), ys, m, item.fpc, item.virtualCost, max, passed)
    ensures EvictedFor(p, item, max, height, protection, w, ok)
    ensures w == Eviction(xs, |xs|, true, ys, m, passed) && Evicted(w) == xs + ys[..m]
  {
    w, ok := Eviction(xs, |xs|, true, ys, m, passed), Fits(RemoveSeq(RemoveSeq(p, xs), ys[..m]), item.virtualCost, max);
    WholePrefix(xs);
  }

  /** Both shielded. */
  lemma GuardedApart(p: Pool, item: Item, max: U64, height: U64, protection: U64, b: Id, x: Id) returns (w: Eviction, ok: bool)
    requires Edged(p) && Counted(p) && max < U64_MAX && b != x
    requires var n := DemandOf(item, max, height, protection);
      && b in p.items && b in Guarded(p, n) && x in p.items && x in Guarded(p, n)
      && !GuardedSecure(p, {}, n, b) && !GuardedDoomed(p, {}, n, x)
    ensures EvictedFor(p, item, max, height, protection, w, ok) && b in Evicted(w) && x !in Evicted(w)
  {
    var n := DemandOf(item, max, height, protection);
    var xs := AllExposedGo(p, n, b);
    GuardedSecureNow(p, n, xs, b);
    GuardedDoomedNow(p, n, xs, x);
    RemoveSeqCounted(p, xs);
    var q := RemoveSeq(p, xs);
    var ys, m, passed := PassSpares(q, Guarded(p, n), item.fpc, item.virtualCost, max, b, x);
    w, ok := BothPasses(p, item, max, height, protection, xs, ys, m, passed);
    assert x !in Elems(xs);
  }

  lemma AllMustGo(p: Pool, xs: seq<Id>, n: Demand, x: Id)
    requires Squeezed(p, xs, |xs|, n.rate, n.cost, n.max, true) && !Roomy(p, Elems(xs), n.cost, n.max) && x in xs && x in p.items
    ensures MustGo(p, Elems(xs), n.rate, n.cost, n.max, x)
  {
    if Roomy(p, UpTo(p, Elems(xs), x), n.cost, n.max) { RoomyMono(p, UpTo(p, Elems(xs), x), Elems(xs), n.cost, n.max); }
  }

  /** When a shielded item can fall, every exposed one must. */
  lemma GuardedAtRisk(p: Pool, n: Demand, b: Id, x: Id)
    requires Edged(p) && Counted(p) && n.max < U64_MAX && b in p.items && b in Guarded(p, n) && !GuardedSecure(p, {}, n, b)
    requires x in p.items && x in Exposed(p, n)
    ensures ExposedDoomed(p, {}, n, x)
  {
    var xs := AllExposedGo(p, n, b);
    AllOrNothing(p, xs, n);
    assert x in Elems(xs);
    AllMustGo(p, xs, n, x);
    ExposedDoomedNow(p, n, x);
  }

  lemma AllOrNothing(p: Pool, xs: seq<Id>, n: Demand)
    requires Counted(p) && n.max < U64_MAX && Elems(xs) <= p.items.Keys && !Fits(RemoveSeq(p, xs), n.cost, n.max)
    ensures !Roomy(p, Elems(xs), n.cost, n.max)
  {
    RoomyAfter(p, xs, {}, n.cost, n.max);
    assert Elems(xs) + {} == Elems(xs);
    assert Roomy(RemoveSeq(p, xs), {}, n.cost, n.max) <==> Fits(RemoveSeq(p, xs), n.cost, n.max);
  }

  /** Some order takes `b`, which can fall, and spares `x`, unless `x` is doomed. */
  lemma CallSpares(p: Pool, item: Item, max: U64, height: U64, protection: U64, b: Id, x: Id) returns (w: Eviction, ok: bool)
    requires Edged(p) && Counted(p) && max < U64_MAX && b != x && b in p.items && x in p.items
    requires !Secure(p, {}, DemandOf(item, max, height, protection), b) && !Doomed(p, {}, DemandOf(item, max, height, protection), x)
    ensures EvictedFor(p, item, max, height, protection, w, ok) && b in Evicted(w) && x !in Evicted(w)
  {
    var n := DemandOf(item, max, height, protection);
    if b in Exposed(p, n) {
      if x in Exposed(p, n) {
        w, ok := ExposedApart(p, item, max, height, protection, b, x);
      } else {
        w, ok := ExposedOnly(p, item, max, height, protection, b, x);
      }
    } else {
      if x in Exposed(p, n) { GuardedAtRisk(p, n, b, x); }
      w, ok := GuardedApart(p, item, max, height, protection, b, x);
    }
  }

  // ── After replace-by-fee ──

  lemma UpToTwice(p: Pool, ids: seq<Id>, s: set<Id>, who: set<Id>, x: Id)
    requires Edged(p) && x in RemoveSeq(p, ids).items
    ensures x in p.items
    ensures UpToWithout(RemoveSeq(p, ids), s, who - Elems(ids), x) == UpToWithout(p, Elems(ids) + s, who, x)
  {
    RemoveSeqKeys(p, ids);
    forall b | b in RemoveSeq(p, ids).items
      ensures b in p.items && ScoreWithout(RemoveSeq(p, ids), s, b) == ScoreWithout(p, Elems(ids) + s, b)
    {
      ScoreWithoutTwice(p, ids, s, b);
    }
  }

  lemma ExposedDoomedTwice(p: Pool, ids: seq<Id>, n: Demand, x: Id)
    requires Edged(p) && Counted(p) && Elems(ids) <= p.items.Keys && x in p.items && x in RemoveSeq(p, ids).items
    ensures ExposedDoomed(RemoveSeq(p, ids), {}, n, x) <==> ExposedDoomed(p, Elems(ids), n, x)
  {
    assert Elems(ids) + {} == Elems(ids);
    ScoreWithoutTwice(p, ids, {}, x);
    DemandTwice(p, ids, n);
    UpToTwice(p, ids, {}, Exposed(p, n), x);
    var up := UpToWithout(p, Elems(ids), Exposed(p, n), x);
    assert {} + up == up;
    RoomyTwice(p, ids, up, n.cost, n.max);
  }

  lemma GuardedDoomedTwice(p: Pool, ids: seq<Id>, n: Demand, x: Id)
    requires Edged(p) && Counted(p) && Elems(ids) <= p.items.Keys && x in p.items && x in RemoveSeq(p, ids).items
    ensures GuardedDoomed(RemoveSeq(p, ids), {}, n, x) <==> GuardedDoomed(p, Elems(ids), n, x)
  {
    var q := RemoveSeq(p, ids);
    DemandTwice(p, ids, n);
    var all, left := Elems(ids) + Exposed(p, n), Exposed(q, n);
    assert {} + left == left && Elems(ids) + left == all && left - {} == Exposed(p, n) - Elems(ids);
    ScoreWithoutTwice(p, ids, left, x);
    assert Elems(ids) + {} == Elems(ids);
    CheapTwice(p, ids, {}, Exposed(p, n), n.rate);
    UpToTwice(p, ids, left, Guarded(p, n), x);
    var up := UpToWithout(p, all, Guarded(p, n), x);
    RoomyTwice(p, ids, left + up, n.cost, n.max);
    assert Elems(ids) + (left + up) == all + up;
  }

  lemma DoomedTwice(p: Pool, ids: seq<Id>, n: Demand, x: Id)
    requires Edged(p) && Counted(p) && Elems(ids) <= p.items.Keys && x in p.items && x in RemoveSeq(p, ids).items
    ensures Doomed(RemoveSeq(p, ids), {}, n, x) <==> Doomed(p, Elems(ids), n, x)
  {
    DemandTwice(p, ids, n);
    RemoveSeqKeys(p, ids);
    ExposedDoomedTwice(p, ids, n, x);
    GuardedDoomedTwice(p, ids, n, x);
  }

  // ── One commit ──

  /** Every child the `risk` has left outside `trees` is doomed. */
  ghost predicate AllDoomed(p: Pool, trees: set<Id>, n: Demand, risk: set<Id>) {
    forall b, x :: b in risk && x in Succ(p.dependents, b) && x !in trees ==> x in p.items && Doomed(p, trees, n, x)
  }

  /** Known before the commit: every remaining child of whoever may have to make room has to go as well. */
  ghost predicate ChildrenDoomed(p: Pool, c: Candidate, v: Chainview, cfg: Config) {
    AllDoomed(p, ConflictTrees(p, c), DemandAt(c, v, cfg), AtRisk(p, c, v, cfg))
  }

  lemma OneDoomed(p: Pool, trees: set<Id>, n: Demand, risk: set<Id>, b: Id, x: Id)
    requires AllDoomed(p, trees, n, risk) && b in risk && x in Succ(p.dependents, b) && x !in trees
    ensures x in p.items && Doomed(p, trees, n, x)
  {
  }

  lemma NotDoomed(p: Pool, trees: set<Id>, n: Demand, risk: set<Id>) returns (b: Id, x: Id)
    requires Edged(p) && Acyclic(p.dependencies) && !AllDoomed(p, trees, n, risk)
    ensures b in risk && x in Succ(p.dependents, b) && x !in trees && x in p.items && x != b && !Doomed(p, trees, n, x)
  {
    b, x :| b in risk && x in Succ(p.dependents, b) && x !in trees && !(x in p.items && Doomed(p, trees, n, x));
    ChildrenActive(p, b);
    NotBelowItself(p, b);
    ReachCovers(p.dependents, {}, Succ(p.dependents, b));
  }

  /** With every displaced item its recorded children are displaced. */
  ghost predicate KidsGone(p: Pool, gone: set<Id>) { forall b :: b in gone ==> Succ(p.dependents, b) <= gone }

  lemma DoomedIsGone(p: Pool, c: Candidate, v: Chainview, cfg: Config, d: Displaced, ok: bool, b: Id, x: Id)
    requires Sound(p) && cfg.maxTotalCost < U64_MAX && Replaces(p, c, v, cfg, d, ok) && b in Elems(Evicted(d.squeezed))
    requires x in p.items && x !in ConflictTrees(p, c) && Doomed(p, ConflictTrees(p, c), DemandAt(c, v, cfg), x)
    ensures x in Elems(Gone(d))
  {
    var q := RemoveSeq(p, d.replaced);
    AfterReplacement(p, c, v, cfg, d.replaced, x);
    DoomedTwice(p, d.replaced, DemandAt(c, v, cfg), x);
    ElemsConcat(d.replaced, Evicted(d.squeezed));
    if !Fits(q, Built(p, q, c, v).virtualCost, cfg.maxTotalCost) {
      DoomedFalls(q, Built(p, q, c, v), cfg.maxTotalCost, v.height, cfg.protection, d.squeezed, ok, x);
    }
  }

  lemma EvictedAtRisk(p: Pool, c: Candidate, v: Chainview, cfg: Config, d: Displaced, ok: bool, b: Id)
    requires Sound(p) && cfg.maxTotalCost < U64_MAX && Replaces(p, c, v, cfg, d, ok) && b in p.items && b in Elems(Evicted(d.squeezed))
    ensures b in AtRisk(p, c, v, cfg)
  {
    ElemsConcat(d.replaced, Evicted(d.squeezed));
    GoneInsecure(p, c, v, cfg, d, ok, b);
    EvictedLater(p, c, v, cfg, d, ok);
  }

  lemma KidFollows(p: Pool, c: Candidate, v: Chainview, cfg: Config, d: Displaced, ok: bool, b: Id, x: Id)
    requires Sound(p) && cfg.maxTotalCost < U64_MAX && Replaces(p, c, v, cfg, d, ok) && ChildrenDoomed(p, c, v, cfg)
    requires b in p.items && b in Elems(Evicted(d.squeezed)) && x in Succ(p.dependents, b) && x !in ConflictTrees(p, c)
    ensures x in Elems(Gone(d))
  {
    ElemsConcat(d.replaced, Evicted(d.squeezed));
    EvictedAtRisk(p, c, v, cfg, d, ok, b);
    OneDoomed(p, ConflictTrees(p, c), DemandAt(c, v, cfg), AtRisk(p, c, v, cfg), b, x);
    DoomedIsGone(p, c, v, cfg, d, ok, b, x);
  }

  lemma KidsFollow(p: Pool, c: Candidate, v: Chainview, cfg: Config, d: Displaced, ok: bool)
    requires Sound(p) && cfg.maxTotalCost < U64_MAX && Replaces(p, c, v, cfg, d, ok) && ChildrenDoomed(p, c, v, cfg)
    ensures KidsGone(p, Elems(Gone(d)))
  {
    var trees, gone := ConflictTrees(p, c), Elems(Gone(d));
    ConflictTreesActive(p, c);
    GoneActive(p, c, v, cfg, d, ok);
    ElemsConcat(d.replaced, Evicted(d.squeezed));
    forall b, x | b in gone && x in Succ(p.dependents, b) ensures x in gone {
      if b !in trees && x !in trees { KidFollows(p, c, v, cfg, d, ok, b, x); }
    }
  }

  lemma LeavesBehind(p: Pool, c: Candidate, v: Chainview, cfg: Config, b: Id, x: Id) returns (d: Displaced, ok: bool)
    requires Sound(p) && cfg.maxTotalCost < U64_MAX && b in AtRisk(p, c, v, cfg) && x in p.items && x != b
    requires x !in ConflictTrees(p, c) && !Doomed(p, ConflictTrees(p, c), DemandAt(c, v, cfg), x)
    ensures Replaces(p, c, v, cfg, d, ok) && b in Elems(Gone(d)) && x !in Elems(Gone(d))
  {
    ConflictTreesActive(p, c);
    var replaced := SweepExists(p, ConflictTrees(p, c));
    var q, n := RemoveSeq(p, replaced), DemandAt(c, v, cfg);
    AfterReplacement(p, c, v, cfg, replaced, b);
    AfterReplacement(p, c, v, cfg, replaced, x);
    DoomedTwice(p, replaced, n, x);
    if Fits(q, n.cost, n.max) { SecureWhenFits(q, n, b); }
    var w;
    w, ok := CallSpares(q, Built(p, q, c, v), cfg.maxTotalCost, v.height, cfg.protection, b, x);
    d := Displaced(replaced, w);
    ElemsConcat(replaced, Evicted(w));
  }

  /** Under every order each displaced item takes its children along, if and only if they are doomed beforehand. */
  lemma KidsGoneIff(p: Pool, c: Candidate, v: Chainview, cfg: Config)
    requires Sound(p) && cfg.maxTotalCost < U64_MAX
    ensures (forall d, ok :: Replaces(p, c, v, cfg, d, ok) ==> KidsGone(p, Elems(Gone(d)))) <==> ChildrenDoomed(p, c, v, cfg)
  {
    if ChildrenDoomed(p, c, v, cfg) {
      forall d, ok | Replaces(p, c, v, cfg, d, ok) ensures KidsGone(p, Elems(Gone(d))) { KidsFollow(p, c, v, cfg, d, ok); }
    } else {
      var b, x := NotDoomed(p, ConflictTrees(p, c), DemandAt(c, v, cfg), AtRisk(p, c, v, cfg));
      var d, ok := LeavesBehind(p, c, v, cfg, b, x);
    }
  }

  // ── Who is let in ──

  /**
   * Once `gone` is gone: displacing every cheaper exposed item makes room, or the newcomer is near expiry, all
   * exposed items are cheaper, and displacing them and every shielded item then cheaper does.
   */
  ghost predicate LetIn(p: Pool, gone: set<Id>, n: Demand) {
    var cheap, all := CheapWithout(p, gone, Exposed(p, n), n.rate), gone + Exposed(p, n);
    && n.cost <= n.max
    && (|| Roomy(p, gone + cheap, n.cost, n.max)
        || (n.nearExpiry && cheap == Exposed(p, n) - gone && Roomy(p, all + CheapWithout(p, all, Guarded(p, n), n.rate), n.cost, n.max)))
  }

  lemma LetInNow(p: Pool, n: Demand)
    ensures LetIn(p, {}, n) <==>
      && n.cost <= n.max
      && (|| Roomy(p, Cheap(p, Exposed(p, n), n.rate), n.cost, n.max)
          || (n.nearExpiry && Cheap(p, Exposed(p, n), n.rate) == Exposed(p, n)
              && Roomy(p, Exposed(p, n) + CheapWithout(p, Exposed(p, n), Guarded(p, n), n.rate), n.cost, n.max)))
  {
    NobodyGone(p);
    var cheap, all := Cheap(p, Exposed(p, n), n.rate), Exposed(p, n);
    assert {} + cheap == cheap && {} + all == all && all - {} == all;
  }

  lemma CallLetsIn(p: Pool, item: Item, max: U64, height: U64, protection: U64, w: Eviction, ok: bool)
    requires Edged(p) && Counted(p) && max < U64_MAX && EvictedFor(p, item, max, height, protection, w, ok)
    ensures ok <==> LetIn(p, {}, DemandOf(item, max, height, protection))
  {
    var n := DemandOf(item, max, height, protection);
    var cheap, late := Cheap(p, Exposed(p, n), n.rate), CheapWithout(p, Exposed(p, n), Guarded(p, n), n.rate);
    LetInNow(p, n);
    assert cheap * p.items.Keys == cheap && (Exposed(p, n) + late) * p.items.Keys == Exposed(p, n) + late;
    if n.nearExpiry {
      ShieldedLetInIff(p, item, max, height, protection, w, ok);
    } else {
      LetInIff(p, item, max, height, protection, w, ok);
    }
  }

  lemma RoomLetsIn(q: Pool, item: Item, v: Chainview, cfg: Config, w: Eviction, ok: bool)
    requires Edged(q) && Counted(q) && cfg.maxTotalCost < U64_MAX && RoomMade(q, item, v, cfg, w, ok)
    ensures ok <==> LetIn(q, {}, DemandOf(item, cfg.maxTotalCost, v.height, cfg.protection))
  {
    var n := DemandOf(item, cfg.maxTotalCost, v.height, cfg.protection);
    if Fits(q, item.virtualCost, cfg.maxTotalCost) {
      LetInNow(q, n);
      assert {} * q.items.Keys == {};
      RoomyMono(q, {}, Cheap(q, Exposed(q, n), n.rate), n.cost, n.max);
    } else {
      CallLetsIn(q, item, cfg.maxTotalCost, v.height, cfg.protection, w, ok);
    }
  }

  lemma LetInTwice(p: Pool, ids: seq<Id>, n: Demand)
    requires Edged(p) && Counted(p) && Elems(ids) <= p.items.Keys
    ensures LetIn(RemoveSeq(p, ids), {}, n) <==> LetIn(p, Elems(ids), n)
  {
    var q := RemoveSeq(p, ids);
    DemandTwice(p, ids, n);
    var all, left := Elems(ids) + Exposed(p, n), Exposed(q, n);
    assert {} + left == left && Elems(ids) + left == all && left - {} == Exposed(p, n) - Elems(ids);
    assert Elems(ids) + {} == Elems(ids);
    CheapTwice(p, ids, {}, Exposed(p, n), n.rate);
    CheapTwice(p, ids, left, Guarded(p, n), n.rate);
    var cheap, late := CheapWithout(p, Elems(ids), Exposed(p, n), n.rate), CheapWithout(p, all, Guarded(p, n), n.rate);
    assert {} + cheap == cheap;
    RoomyTwice(p, ids, cheap, n.cost, n.max);
    RoomyTwice(p, ids, left + late, n.cost, n.max);
    assert Elems(ids) + (left + late) == all + late;
  }

  /** Whether a newcomer past the checks finds room is known before the commit, whatever the hash maps do. */
  lemma EntersIff(p: Pool, c: Candidate, v: Chainview, cfg: Config, d: Displaced, ok: bool)
    requires Sound(p) && cfg.maxTotalCost < U64_MAX && Replaces(p, c, v, cfg, d, ok)
    ensures ok <==> LetIn(p, ConflictTrees(p, c), DemandAt(c, v, cfg))
  {
    var q := RemoveSeq(p, d.replaced);
    RemoveSeqSound(p, d.replaced);
    RoomLetsIn(q, Built(p, q, c, v), v, cfg, d.squeezed, ok);
    LetInTwice(p, d.replaced, DemandAt(c, v, cfg));
  }

  // ── Orphans ──

  lemma KidsGoneNoOrphans(p: Pool, gone: seq<Id>)
    requires Edged(p) && NoOrphans(p.items) && EdgesFull(p)
    ensures KidsGone(p, Elems(gone)) ==> NoOrphans(RemoveSeq(p, gone).items)
  {
    var r := RemoveSeq(p, gone).items;
    RemoveSeqItems(p, gone);
    if KidsGone(p, Elems(gone)) {
      forall x, q | x in r && q in r[x].dependsOn ensures q in r {
        AlikeFields(r, p.items - Elems(gone), x);
        assert x in Succ(p.dependents, q);
      }
    }
  }

  lemma LeftBehind(p: Pool, gone: seq<Id>, b: Id, x: Id)
    requires Edged(p) && x in p.items && x in Succ(p.dependents, b) && b in Elems(gone) && x !in Elems(gone)
    ensures var r := RemoveSeq(p, gone).items; x in r && b in r[x].dependsOn && b !in r
  {
    ChildrenActive(p, b);
    RemoveSeqItems(p, gone);
    AlikeFields(RemoveSeq(p, gone).items, p.items - Elems(gone), x);
  }

  /** The newcomer finds room, and the policy has nothing against it. */
  ghost predicate Enters(p: Pool, c: Candidate, v: Chainview, cfg: Config) {
    v.policyAccepts && LetIn(p, ConflictTrees(p, c), DemandAt(c, v, cfg))
  }

  /** Known before the commit: nothing it may displace leaves a child behind, or the newcomer if that gets in. */
  ghost predicate KinSpared(p: Pool, c: Candidate, v: Chainview, cfg: Config) {
    ChildrenDoomed(p, c, v, cfg) && (Enters(p, c, v, cfg) ==> ParentsSpared(p, c, v, cfg))
  }

  lemma SurvivorsNoOrphans(p: Pool, c: Candidate, v: Chainview, cfg: Config, d: Displaced, ok: bool)
    requires Sound(p) && NoOrphans(p.items) && EdgesFull(p) && cfg.maxTotalCost < U64_MAX
    requires Replaces(p, c, v, cfg, d, ok) && ChildrenDoomed(p, c, v, cfg)
    ensures NoOrphans(RemoveSeq(p, Gone(d)).items)
  {
    KidsFollow(p, c, v, cfg, d, ok);
    KidsGoneNoOrphans(p, Gone(d));
  }

  lemma AdmitNoOrphans(p: Pool, item: Item)
    requires NoOrphans(p.items) && item.dependsOn <= p.items.Keys
    ensures NoOrphans(Admit(p, item).items)
  {
    var r := Admit(p, item).items;
    AdmitItems(p, item);
    forall b | b in r ensures r[b].dependsOn <= r.Keys { AlikeFields(r, p.items[item.id := item], b); }
  }

  lemma SparedNoOrphans(p: Pool, c: Candidate, v: Chainview, cfg: Config, d: Displaced, r: Pool, answer: Option<MempoolError>)
    requires Sound(p) && NoOrphans(p.items) && EdgesFull(p) && cfg.maxTotalCost < U64_MAX
    requires Commits(p, c, v, cfg, d, r, answer) && KinSpared(p, c, v, cfg)
    ensures NoOrphans(r.items)
  {
    CommitCases(p, c, v, cfg, d, r, answer);
    if r != p {
      SurvivorsNoOrphans(p, c, v, cfg, d, answer != Some(MempoolFull));
      if answer.None? {
        EntersIff(p, c, v, cfg, d, true);
        OwnParentsStay(p, c, v, cfg, d, true);
        ParentsActive(p, c, v);
        RemoveSeqKeys(p, Gone(d));
        BuiltFields(p, RemoveSeq(p, d.replaced), c, v);
        AdmitNoOrphans(RemoveSeq(p, Gone(d)), Built(p, RemoveSeq(p, d.replaced), c, v));
      }
    }
  }

  /** How a commit that passed the checks went, given what was displaced. */
  ghost function AnswerFor(v: Chainview, ok: bool): Option<MempoolError> {
    if !ok then Some(MempoolFull) else if v.policyAccepts then None else Some(PolicyRejected)
  }

  ghost function After(p: Pool, c: Candidate, v: Chainview, d: Displaced, ok: bool): Pool
    requires CoinsTrue(p) && d.squeezed.k <= |d.squeezed.exposed| && d.squeezed.m <= |d.squeezed.shielded|
  {
    if ok && v.policyAccepts then Admit(RemoveSeq(p, Gone(d)), Built(p, RemoveSeq(p, d.replaced), c, v)) else RemoveSeq(p, Gone(d))
  }

  lemma CommitFollows(p: Pool, c: Candidate, v: Chainview, cfg: Config, d: Displaced, ok: bool)
    requires CoinsTrue(p) && c.id !in p.items && Refusal(p, c, v, cfg).None? && Replaces(p, c, v, cfg, d, ok)
    ensures Commits(p, c, v, cfg, d, After(p, c, v, d, ok), AnswerFor(v, ok))
  {
    Concludes(p, c, v, cfg, d, After(p, c, v, d, ok), AnswerFor(v, ok));
  }

  lemma StillThere(p: Pool, c: Candidate, v: Chainview, d: Displaced, ok: bool, x: Id, b: Id)
    requires CoinsTrue(p) && d.squeezed.k <= |d.squeezed.exposed| && d.squeezed.m <= |d.squeezed.shielded| && c.id !in p.items
    requires b in p.items && b != c.id
    requires var r := RemoveSeq(p, Gone(d)).items; x in r && b in r[x].dependsOn && b !in r
    ensures !NoOrphans(After(p, c, v, d, ok).items)
  {
    var q, item := RemoveSeq(p, Gone(d)), Built(p, RemoveSeq(p, d.replaced), c, v);
    RemoveSeqKeys(p, Gone(d));
    BuiltFields(p, RemoveSeq(p, d.replaced), c, v);
    AdmitItems(q, item);
    AlikeItemFields(Admit(q, item).items, q.items[item.id := item], x);
  }

  lemma AlikeItemFields(a: map<Id, Item>, b: map<Id, Item>, x: Id)
    requires Alike(a, b) && x in b
    ensures x in a && a[x].dependsOn == b[x].dependsOn && a.Keys == b.Keys
  {
    AlikeFields(a, b, x);
  }

  lemma SomeOutcome(p: Pool, c: Candidate, v: Chainview, cfg: Config) returns (d: Displaced, ok: bool)
    requires Sound(p)
    ensures Replaces(p, c, v, cfg, d, ok)
  {
    ConflictTreesActive(p, c);
    var replaced := SweepExists(p, ConflictTrees(p, c));
    var w;
    w, ok := RoomExists(RemoveSeq(p, replaced), Built(p, RemoveSeq(p, replaced), c, v), v, cfg);
    d := Displaced(replaced, w);
  }

  /** Every answer of a commit, and exactly when it is given; all of it is known before the commit. */
  lemma CommitAnswers(p: Pool, c: Candidate, v: Chainview, cfg: Config, d: Displaced, r: Pool, answer: Option<MempoolError>)
    requires Sound(p) && cfg.maxTotalCost < U64_MAX && Commits(p, c, v, cfg, d, r, answer)
    ensures Elems(Conflicts(p, c)) <= p.items.Keys
    ensures var verdict := if Conflicts(p, c) == [] then None
        else Verdict(p.items, Elems(Conflicts(p, c)), c.removals, c.fee, c.Rate(), cfg.minBump);
      answer ==
        if c.id in p.items then None
        else if FamilyRefusal(p, c, v, cfg).Some? then FamilyRefusal(p, c, v, cfg)
        else if verdict.Some? then verdict
        else if !LetIn(p, ConflictTrees(p, c), DemandAt(c, v, cfg)) then Some(MempoolFull)
        else if !v.policyAccepts then Some(PolicyRejected)
        else None
  {
    ConflictsActive(p, c);
    if c.id !in p.items && Refusal(p, c, v, cfg).None? { EntersIff(p, c, v, cfg, d, answer != Some(MempoolFull)); }
  }

  /** Past the rules, the newcomer spends every coin of everybody it conflicts with. */
  lemma ConflictsAreCovered(p: Pool, c: Candidate, v: Chainview, cfg: Config, d: Displaced, r: Pool, answer: Option<MempoolError>,
                            b: Id, x: CoinId)
    requires CoinsTrue(p) && Commits(p, c, v, cfg, d, r, answer) && c.id !in p.items && (answer.None? || r != p)
    requires b in Conflicts(p, c) && b in p.items && x in p.items[b].removals
    ensures x in c.removals
  {
    ConflictsActive(p, c);
    assert b in Elems(Conflicts(p, c));
    VerdictMeans(p.items, Elems(Conflicts(p, c)), c.removals, c.fee, c.Rate(), cfg.minBump);
  }

  /** If some child is not doomed, some order leaves it behind, whatever the answer. */
  lemma ChildOrphaned(p: Pool, c: Candidate, v: Chainview, cfg: Config) returns (d: Displaced, ok: bool)
    requires Sound(p) && cfg.maxTotalCost < U64_MAX && c.id !in p.items && Refusal(p, c, v, cfg).None? && !ChildrenDoomed(p, c, v, cfg)
    ensures Replaces(p, c, v, cfg, d, ok) && !NoOrphans(After(p, c, v, d, ok).items)
  {
    var b, x := NotDoomed(p, ConflictTrees(p, c), DemandAt(c, v, cfg), AtRisk(p, c, v, cfg));
    d, ok := LeavesBehind(p, c, v, cfg, b, x);
    LeftBehind(p, Gone(d), b, x);
    StillThere(p, c, v, d, ok, x, b);
  }

  /** If a newcomer that gets in may lose a parent, some order leaves it behind itself. */
  lemma NewcomerOrphaned(p: Pool, c: Candidate, v: Chainview, cfg: Config) returns (d: Displaced)
    requires Sound(p) && cfg.maxTotalCost < U64_MAX && c.id !in p.items && Refusal(p, c, v, cfg).None?
    requires Enters(p, c, v, cfg) && !ParentsSpared(p, c, v, cfg)
    ensures Replaces(p, c, v, cfg, d, true) && !NoOrphans(After(p, c, v, d, true).items)
  {
    ParentsActive(p, c, v);
    var q :| q in ParentsOf(p, c, v) && !Survives(p, c, v, cfg, q);
    var ok;
    d, ok := DisplacedBy(p, c, v, cfg, q);
    EntersIff(p, c, v, cfg, d, ok);
    CommitFollows(p, c, v, cfg, d, true);
    LostParentOrphans(p, c, v, cfg, d, After(p, c, v, d, true), q);
  }

  /**
   * A commit past the checks orphans nobody under any order of hash maps and ties if and only if it spares kin:
   * every remaining child of whoever may fall has to fall too, and a newcomer that gets in keeps its parents.
   */
  lemma OrphansNobodyIff(p: Pool, c: Candidate, v: Chainview, cfg: Config)
    requires Sound(p) && NoOrphans(p.items) && EdgesFull(p) && cfg.maxTotalCost < U64_MAX
    requires c.id !in p.items && Refusal(p, c, v, cfg).None?
    ensures (forall d, r, answer :: Commits(p, c, v, cfg, d, r, answer) ==> NoOrphans(r.items)) <==> KinSpared(p, c, v, cfg)
  {
    if KinSpared(p, c, v, cfg) {
      forall d, r, answer | Commits(p, c, v, cfg, d, r, answer) ensures NoOrphans(r.items) {
        SparedNoOrphans(p, c, v, cfg, d, r, answer);
      }
    } else if !ChildrenDoomed(p, c, v, cfg) {
      var d, ok := ChildOrphaned(p, c, v, cfg);
      CommitFollows(p, c, v, cfg, d, ok);
    } else {
      var d := NewcomerOrphaned(p, c, v, cfg);
      CommitFollows(p, c, v, cfg, d, true);
    }
  }
}
