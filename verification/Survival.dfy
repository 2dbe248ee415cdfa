/**
 * Who survives a displacement, whatever order hash maps are walked in and ties are broken in
 * (src/pools/active.rs:357-419, src/mempool/submit.rs:815-907).
 */
module Survival {
  import opened Prelude
  import opened Items
  import opened Sums
  import opened Graph
  import opened Sorting
  import opened PoolState
  import opened PoolInvariants
  import opened Cascades
  import opened Evictions
  import opened Admission
  import opened Admitted

  // ── One pass ──

  /** By score; among equals `b` comes first and `x`, if it is another, last. */
  ghost function TieKeys(items: map<Id, Item>, b: Id, x: Id): map<Id, Key> {
    map y | y in items :: [items[y].descendantScore, TieOf(b, x, y)]
  }

  function TieOf(b: Id, x: Id, y: Id): int { if y == b then 0 else if y == x then 2 else 1 }

  lemma TieBefore(items: map<Id, Item>, b: Id, x: Id, xs: seq<Id>, i: nat, j: nat)
    requires SortedBy(TieKeys(items, b, x), xs) && NoDup(xs) && i < j < |xs|
    ensures xs[i] in items && xs[j] in items
    ensures var s, t := items[xs[i]].descendantScore, items[xs[j]].descendantScore;
      s < t || (s == t && TieOf(b, x, xs[i]) <= TieOf(b, x, xs[j]))
  {
    assert xs[j] in Elems(xs) && xs[i] in Elems(xs);
    var key := TieKeys(items, b, x);
    assert AtMost(key[xs[i]], key[xs[j]]);
    LessPair(items[xs[j]].descendantScore, TieOf(b, x, xs[j]), items[xs[i]].descendantScore, TieOf(b, x, xs[i]));
  }

  /** The strictly cheaper ones are those before `b`. */
  lemma TiesSorted(items: map<Id, Item>, b: Id, x: Id, xs: seq<Id>, i: nat, j: nat)
    requires SortedBy(TieKeys(items, b, x), xs) && NoDup(xs) && i < |xs| && j < |xs| && xs[i] == b
    ensures b in items && xs[j] in items
    ensures j < i <==> items[xs[j]].descendantScore < items[b].descendantScore
  {
    assert xs[i] in Elems(xs) && xs[j] in Elems(xs);
    if j < i { TieBefore(items, b, x, xs, j, i); } else if i < j { TieBefore(items, b, x, xs, i, j); }
  }

  /** And those before `x` are all the others that score no more. */
  lemma TiesLast(items: map<Id, Item>, b: Id, x: Id, xs: seq<Id>, i: nat, j: nat)
    requires SortedBy(TieKeys(items, b, x), xs) && NoDup(xs) && i < |xs| && j < |xs| && xs[i] == x != b
    ensures x in items && xs[j] in items
    ensures j < i <==> xs[j] != x && items[xs[j]].descendantScore <= items[x].descendantScore
  {
    assert xs[i] in Elems(xs) && xs[j] in Elems(xs);
    if j < i { TieBefore(items, b, x, xs, j, i); } else if i < j { TieBefore(items, b, x, xs, i, j); }
  }

  lemma TiesByScore(items: map<Id, Item>, b: Id, x: Id, xs: seq<Id>)
    requires SortedBy(TieKeys(items, b, x), xs) && NoDup(xs)
    ensures SortedBy(ScoreKeys(items), xs)
  {
    forall j, k | 0 <= j < k < |xs|
      ensures xs[j] in items && xs[k] in items && AtMost(ScoreKeys(items)[xs[j]], ScoreKeys(items)[xs[k]])
    {
      TieBefore(items, b, x, xs, j, k);
      LessOne(items[xs[k]].descendantScore, items[xs[j]].descendantScore);
    }
  }

  lemma PrefixIs(xs: seq<Id>, i: nat, s: set<Id>)
    requires i <= |xs| && s <= Elems(xs) && forall j :: 0 <= j < |xs| ==> (j < i <==> xs[j] in s)
    ensures Elems(xs[..i]) == s
  {
    PrefixHas(xs, i);
    forall y | y in s ensures y in Elems(xs[..i]) { var j :| 0 <= j < |xs| && xs[j] == y; }
    forall y | y in Elems(xs[..i]) ensures y in s {
      var j :| 0 <= j < i && xs[..i][j] == y;
      assert xs[j] == y;
    }
  }

  /** Listed by score, `b` before everyone with the same score and `x` after them. */
  lemma TiesAfter(p: Pool, who: set<Id>, b: Id, x: Id) returns (xs: seq<Id>, i: nat)
    requires b in who && who <= p.items.Keys
    ensures NoDup(xs) && Elems(xs) == who && SortedBy(ScoreKeys(p.items), xs) && SortedBy(TieKeys(p.items, b, x), xs)
    ensures i < |xs| && xs[i] == b && Elems(xs[..i]) == Cheap(p, who, p.items[b].descendantScore)
  {
    xs := SortedExists(TieKeys(p.items, b, x), who);
    TiesByScore(p.items, b, x, xs);
    assert b in Elems(xs);
    i :| 0 <= i < |xs| && xs[i] == b;
    forall j | 0 <= j < |xs| ensures j < i <==> xs[j] in Cheap(p, who, p.items[b].descendantScore) {
      TiesSorted(p.items, b, x, xs, i, j);
      assert xs[j] in Elems(xs);
    }
    PrefixIs(xs, i, Cheap(p, who, p.items[b].descendantScore));
  }

  /** Whoever comes before position `i` includes everyone strictly cheaper. */
  lemma CheaperBefore(p: Pool, cands: seq<Id>, i: nat)
    requires SortedBy(ScoreKeys(p.items), cands) && i < |cands|
    ensures cands[i] in p.items
    ensures Cheap(p, Elems(cands), p.items[cands[i]].descendantScore) <= Elems(cands[..i])
  {
    assert cands[i] in Elems(cands);
    PrefixHas(cands, i);
    forall x | x in Cheap(p, Elems(cands), p.items[cands[i]].descendantScore) ensures x in Elems(cands[..i]) {
      var j :| 0 <= j < |cands| && cands[j] == x;
      LessOne(p.items[x].descendantScore, p.items[cands[i]].descendantScore);
    }
  }

  lemma RemovedUpTo(p: Pool, cands: seq<Id>, i: nat)
    requires Counted(p) && SortedBy(ScoreKeys(p.items), cands) && i <= |cands|
    ensures Elems(cands[..i]) <= p.items.Keys
    ensures Sum(Costs(p.items), Elems(cands[..i])) <= p.totalCost
    ensures RemoveSeq(p, cands[..i]).totalCost == p.totalCost - Sum(Costs(p.items), Elems(cands[..i]))
  {
    PrefixWithin(cands, i);
    RemoveSeqCost(p, cands[..i]);
  }

  lemma CheaperFirst(p: Pool, xs: seq<Id>, i: nat, rate: U128, vc: U64, max: U64)
    requires Counted(p) && max < U64_MAX && NoDup(xs) && SortedBy(ScoreKeys(p.items), xs) && i < |xs| && xs[i] in p.items
    requires Elems(xs[..i]) == Cheap(p, Elems(xs), p.items[xs[i]].descendantScore) && p.items[xs[i]].descendantScore < rate
    requires p.totalCost - Sum(Costs(p.items), Cheap(p, Elems(xs), p.items[xs[i]].descendantScore)) + vc > max
    ensures Squeezing(p, xs, i + 1, rate, vc, max)
  {
    SqueezeStarts(p, xs, rate, vc, max);
    forall j | 0 <= j < i + 1
      ensures p.items[xs[j]].descendantScore < rate && !Fits(RemoveSeq(p, xs[..j]), vc, max)
    {
      if j < i { assert xs[..i][j] in Elems(xs[..i]); }
      RemovedUpTo(p, xs, j);
      assert forall x :: x in xs[..j] ==> x in xs[..i];
      SumMono(Costs(p.items), Elems(xs[..j]), Elems(xs[..i]));
    }
  }

  /** There is room for `cost` once `gone` is gone. */
  ghost predicate Roomy(p: Pool, gone: set<Id>, cost: U64, max: U64) {
    p.totalCost - Sum(Costs(p.items), gone * p.items.Keys) + cost <= max
  }

  /** A pass takes only what scores below the rate, and only while everyone strictly cheaper does not make room. */
  lemma PassTakes(p: Pool, cands: seq<Id>, k: nat, rate: U128, vc: U64, max: U64, ok: bool, b: Id)
    requires Counted(p) && max < U64_MAX && Squeezed(p, cands, k, rate, vc, max, ok) && b in cands[..k]
    ensures b in p.items && p.items[b].descendantScore < rate
    ensures !Roomy(p, Cheap(p, Elems(cands), p.items[b].descendantScore), vc, max)
  {
    var i :| 0 <= i < k && cands[..k][i] == b;
    var cheap := Cheap(p, Elems(cands), p.items[b].descendantScore);
    RemovedUpTo(p, cands, i);
    CheaperBefore(p, cands, i);
    SumMono(Costs(p.items), cheap, Elems(cands[..i]));
    assert cheap * p.items.Keys == cheap;
  }

  /** Whatever it may take, it does take under some order of the ties. */
  lemma PassMayTake(p: Pool, who: set<Id>, rate: U128, vc: U64, max: U64, b: Id) returns (xs: seq<Id>, k: nat, ok: bool)
    requires Counted(p) && max < U64_MAX && b in who && who <= p.items.Keys && p.items[b].descendantScore < rate
    requires !Roomy(p, Cheap(p, who, p.items[b].descendantScore), vc, max)
    ensures Elems(xs) == who && Squeezed(p, xs, k, rate, vc, max, ok) && b in xs[..k]
  {
    var i;
    xs, i := TiesAfter(p, who, b, b);
    assert Cheap(p, who, p.items[b].descendantScore) * p.items.Keys == Cheap(p, who, p.items[b].descendantScore);
    CheaperFirst(p, xs, i, rate, vc, max);
    k, ok := SqueezeRuns(p, xs, i + 1, rate, vc, max);
    assert xs[..k][i] == b;
  }

  /** When all candidates are cheap and do not make room, the pass takes them all. */
  lemma PassTakesAll(p: Pool, xs: seq<Id>, rate: U128, vc: U64, max: U64)
    requires Counted(p) && max < U64_MAX && NoDup(xs) && SortedBy(ScoreKeys(p.items), xs)
    requires Elems(xs) <= Cheap(p, Elems(xs), rate) && !Roomy(p, Elems(xs), vc, max)
    ensures Squeezed(p, xs, |xs|, rate, vc, max, true) && !Fits(RemoveSeq(p, xs), vc, max)
  {
    assert Elems(xs) * p.items.Keys == Elems(xs);
    forall j | 0 <= j <= |xs| ensures !Fits(RemoveSeq(p, xs[..j]), vc, max) {
      RemovedUpTo(p, xs, j);
      PrefixWithin(xs, j);
      SumMono(Costs(p.items), Elems(xs[..j]), Elems(xs));
    }
    WholePrefix(xs);
    forall j | 0 <= j < |xs| ensures p.items[xs[j]].descendantScore < rate { assert xs[j] in Elems(xs); }
  }

  // ── One call ──

  /** What a newcomer brings to the pool, and the rules of the day. */
  datatype Demand = Demand(cost: U64, rate: U128, nearExpiry: bool, max: U64, height: U64, protection: U64)

  function DemandOf(item: Item, max: U64, height: U64, protection: U64): Demand {
    Demand(item.virtualCost, item.fpc, item.ExpiryProtected(height, protection), max, height, protection)
  }

  ghost function Guarded(p: Pool, n: Demand): set<Id> { Shielded(p.items, n.height, n.protection) }

  ghost function Exposed(p: Pool, n: Demand): set<Id> { p.items.Keys - Guarded(p, n) }

  /**
   * Without `gone`, an exposed item is secure if the newcomer is too large, if it scores well enough, or
   * if there is room once every strictly cheaper exposed item has gone as well.
   */
  ghost predicate ExposedSecure(p: Pool, gone: set<Id>, n: Demand, b: Id)
    requires b in p.items
  {
    var score := ScoreWithout(p, gone, b);
    || n.cost > n.max || n.rate <= score
    || Roomy(p, gone + CheapWithout(p, gone, Exposed(p, n), score), n.cost, n.max)
  }

  /**
   * A shielded item is also secure if the newcomer is not near expiry or some exposed item is too good for it;
   * otherwise its score and the room are those once all exposed items have gone.
   */
  ghost predicate GuardedSecure(p: Pool, gone: set<Id>, n: Demand, b: Id)
    requires b in p.items
  {
    var all := gone + Exposed(p, n);
    var score := ScoreWithout(p, all, b);
    || n.cost > n.max || n.rate <= score
    || !n.nearExpiry || CheapWithout(p, gone, Exposed(p, n), n.rate) != Exposed(p, n) - gone
    || Roomy(p, all + CheapWithout(p, all, Guarded(p, n), score), n.cost, n.max)
  }

  ghost predicate Secure(p: Pool, gone: set<Id>, n: Demand, b: Id)
    requires b in p.items
  {
    if b in Exposed(p, n) then ExposedSecure(p, gone, n, b) else GuardedSecure(p, gone, n, b)
  }

  lemma NobodyGone(p: Pool)
    ensures forall b :: b in p.items ==> ScoreWithout(p, {}, b) == p.items[b].descendantScore
    ensures forall who: set<Id>, rate: U128 :: CheapWithout(p, {}, who, rate) == Cheap(p, who, rate)
  {
  }

  /** Everything an exposed pass can do, at the start of a call. */
  lemma ExposedSecureNow(p: Pool, n: Demand, b: Id)
    requires b in p.items
    ensures ExposedSecure(p, {}, n, b) <==>
      || n.cost > n.max || n.rate <= p.items[b].descendantScore
      || Roomy(p, Cheap(p, Exposed(p, n), p.items[b].descendantScore), n.cost, n.max)
  {
    NobodyGone(p);
    var cheap := Cheap(p, Exposed(p, n), p.items[b].descendantScore);
    assert {} + cheap == cheap;
  }

  lemma WithoutExposed(p: Pool, n: Demand, xs: seq<Id>, b: Id)
    requires Edged(p) && b in Guarded(p, n) && Elems(xs) == Exposed(p, n)
    ensures var q := RemoveSeq(p, xs);
      && b in p.items && b in q.items && Shielded(q.items, n.height, n.protection) == Guarded(p, n)
      && q.items[b].descendantScore == ScoreWithout(p, Exposed(p, n), b)
  {
    RemoveSeqKeys(p, xs);
    ShieldedAfter(p, xs, n.height, n.protection);
    RemoveSeqScore(p, xs, b);
  }

  /** And for the second pass, with the exposed items `xs` gone. */
  lemma GuardedSecureNow(p: Pool, n: Demand, xs: seq<Id>, b: Id)
    requires Edged(p) && Counted(p) && b in p.items && b in Guarded(p, n) && Elems(xs) == Exposed(p, n)
    ensures var q := RemoveSeq(p, xs);
      && b in q.items && Shielded(q.items, n.height, n.protection) == Guarded(p, n)
      && (GuardedSecure(p, {}, n, b) <==>
            || n.cost > n.max || n.rate <= q.items[b].descendantScore
            || !n.nearExpiry || Cheap(p, Exposed(p, n), n.rate) != Exposed(p, n)
            || Roomy(q, Cheap(q, Guarded(p, n), q.items[b].descendantScore), n.cost, n.max))
  {
    var q, all := RemoveSeq(p, xs), Exposed(p, n);
    WithoutExposed(p, n, xs, b);
    var cheap := Cheap(q, Guarded(p, n), q.items[b].descendantScore);
    CheapAfter(p, xs, Guarded(p, n), q.items[b].descendantScore);
    RoomyAfter(p, xs, cheap, n.cost, n.max);
    NobodyGone(p);
    assert {} + all == all && all - {} == all;
  }

  lemma RoomyAfter(p: Pool, ids: seq<Id>, cheap: set<Id>, cost: U64, max: U64)
    requires Counted(p) && Elems(ids) <= p.items.Keys && cheap <= RemoveSeq(p, ids).items.Keys
    ensures Roomy(RemoveSeq(p, ids), cheap, cost, max) <==> Roomy(p, Elems(ids) + cheap, cost, max)
  {
    SumAfter(p, ids, cheap);
    assert cheap * RemoveSeq(p, ids).items.Keys == cheap;
    assert (Elems(ids) + cheap) * p.items.Keys == Elems(ids) + cheap;
  }

  lemma RoomyMono(p: Pool, a: set<Id>, b: set<Id>, cost: U64, max: U64)
    requires a <= b && Roomy(p, a, cost, max)
    ensures Roomy(p, b, cost, max)
  {
    SumMono(Costs(p.items), a * p.items.Keys, b * p.items.Keys);
  }

  lemma FirstInsecure(p: Pool, item: Item, max: U64, height: U64, protection: U64, w: Eviction, ok: bool, b: Id)
    requires Counted(p) && max < U64_MAX && EvictedFor(p, item, max, height, protection, w, ok) && b in First(w)
    ensures b in p.items && b in Exposed(p, DemandOf(item, max, height, protection))
    ensures !ExposedSecure(p, {}, DemandOf(item, max, height, protection), b)
  {
    PassTakes(p, w.exposed, w.k, item.fpc, item.virtualCost, max, w.exposedOk, b);
    PrefixWithin(w.exposed, w.k);
    assert b in Elems(w.exposed[..w.k]);
    ExposedSecureNow(p, DemandOf(item, max, height, protection), b);
  }

  /** When the second pass removes anybody, the first has removed every exposed item, and all were cheap. */
  lemma SecondPassRan(p: Pool, item: Item, max: U64, height: U64, protection: U64, w: Eviction, ok: bool)
    requires EvictedFor(p, item, max, height, protection, w, ok) && w.m > 0
    ensures item.virtualCost <= max && item.ExpiryProtected(height, protection)
    ensures First(w) == w.exposed && Elems(w.exposed) == Exposed(p, DemandOf(item, max, height, protection))
    ensures Cheap(p, Elems(w.exposed), item.fpc) == Elems(w.exposed)
    ensures var q := RemoveSeq(p, w.exposed);
      && Elems(w.shielded) == Shielded(q.items, height, protection)
      && Squeezed(q, w.shielded, w.m, item.fpc, item.virtualCost, max, w.shieldedOk)
  {
    WholePrefix(w.exposed);
    assert First(w) == w.exposed;
    SqueezedCheap(p, w.exposed, w.k, item.fpc, item.virtualCost, max, w.exposedOk);
  }

  lemma SecondInsecure(p: Pool, item: Item, max: U64, height: U64, protection: U64, w: Eviction, ok: bool, b: Id)
    requires Edged(p) && Counted(p) && max < U64_MAX && EvictedFor(p, item, max, height, protection, w, ok)
    requires b in w.shielded[..w.m]
    ensures b in p.items && b in Guarded(p, DemandOf(item, max, height, protection))
    ensures !GuardedSecure(p, {}, DemandOf(item, max, height, protection), b)
  {
    var q := RemoveSeq(p, w.exposed);
    SecondPassRan(p, item, max, height, protection, w, ok);
    RemoveSeqCounted(p, w.exposed);
    PassTakes(q, w.shielded, w.m, item.fpc, item.virtualCost, max, w.shieldedOk, b);
    PrefixWithin(w.shielded, w.m);
    assert b in Elems(w.shielded[..w.m]);
    ShieldedAfter(p, w.exposed, height, protection);
    GuardedSecureNow(p, DemandOf(item, max, height, protection), w.exposed, b);
  }

  lemma EvictedInsecure(p: Pool, item: Item, max: U64, height: U64, protection: U64, w: Eviction, ok: bool, b: Id)
    requires Edged(p) && Counted(p) && max < U64_MAX && EvictedFor(p, item, max, height, protection, w, ok) && b in Evicted(w)
    ensures b in p.items && !Secure(p, {}, DemandOf(item, max, height, protection), b)
  {
    if b in First(w) {
      FirstInsecure(p, item, max, height, protection, w, ok, b);
    } else {
      SecondInsecure(p, item, max, height, protection, w, ok, b);
    }
  }

  lemma ExposedEvicted(p: Pool, item: Item, max: U64, height: U64, protection: U64, b: Id) returns (w: Eviction, ok: bool)
    requires Counted(p) && max < U64_MAX && b in Exposed(p, DemandOf(item, max, height, protection))
    requires !ExposedSecure(p, {}, DemandOf(item, max, height, protection), b)
    ensures EvictedFor(p, item, max, height, protection, w, ok) && b in Evicted(w)
  {
    var n := DemandOf(item, max, height, protection);
    ExposedSecureNow(p, n, b);
    var xs, k, passed := PassMayTake(p, Exposed(p, n), item.fpc, item.virtualCost, max, b);
    w, ok := CallExists(p, item, max, height, protection, xs, k, passed);
    assert b in First(w);
  }

  /** The exposed items, all cheap and not enough, in the order in which the first pass takes them. */
  lemma AllExposedGo(p: Pool, n: Demand, b: Id) returns (xs: seq<Id>)
    requires Edged(p) && Counted(p) && n.max < U64_MAX && b in p.items && b in Guarded(p, n) && !GuardedSecure(p, {}, n, b)
    ensures Elems(xs) == Exposed(p, n) && Squeezed(p, xs, |xs|, n.rate, n.cost, n.max, true)
    ensures !Fits(RemoveSeq(p, xs), n.cost, n.max)
  {
    xs := SortedExists(ScoreKeys(p.items), Exposed(p, n));
    GuardedSecureNow(p, n, xs, b);
    var q := RemoveSeq(p, xs);
    RoomyAfter(p, xs, {}, n.cost, n.max);
    assert Elems(xs) + {} == Elems(xs);
    if Roomy(q, {}, n.cost, n.max) {
      RoomyMono(q, {}, Cheap(q, Guarded(p, n), q.items[b].descendantScore), n.cost, n.max);
    }
    PassTakesAll(p, xs, n.rate, n.cost, n.max);
  }

  lemma GuardedEvicted(p: Pool, item: Item, max: U64, height: U64, protection: U64, b: Id) returns (w: Eviction, ok: bool)
    requires Edged(p) && Counted(p) && max < U64_MAX && b in p.items && b in Guarded(p, DemandOf(item, max, height, protection))
    requires !GuardedSecure(p, {}, DemandOf(item, max, height, protection), b)
    ensures EvictedFor(p, item, max, height, protection, w, ok) && b in Evicted(w)
  {
    var n := DemandOf(item, max, height, protection);
    var xs := AllExposedGo(p, n, b);
    GuardedSecureNow(p, n, xs, b);
    RemoveSeqCounted(p, xs);
    var q := RemoveSeq(p, xs);
    var ys, m, passed := PassMayTake(q, Guarded(p, n), item.fpc, item.virtualCost, max, b);
    w, ok := Eviction(xs, |xs|, true, ys, m, passed), Fits(RemoveSeq(q, ys[..m]), item.virtualCost, max);
    WholePrefix(xs);
    assert First(w) == xs && b in w.shielded[..w.m];
  }

  /** An item survives the call, however ties are broken, exactly when it is secure. */
  lemma SurvivesCallIff(p: Pool, item: Item, max: U64, height: U64, protection: U64, b: Id)
    requires Edged(p) && Counted(p) && max < U64_MAX && b in p.items
    ensures (forall w, ok :: EvictedFor(p, item, max, height, protection, w, ok) ==> b !in Evicted(w))
       <==> Secure(p, {}, DemandOf(item, max, height, protection), b)
  {
    var n := DemandOf(item, max, height, protection);
    if Secure(p, {}, n, b) {
      forall w, ok | EvictedFor(p, item, max, height, protection, w, ok) ensures b !in Evicted(w) {
        if b in Evicted(w) { EvictedInsecure(p, item, max, height, protection, w, ok, b); }
      }
    } else if b in Exposed(p, n) {
      var w, ok := ExposedEvicted(p, item, max, height, protection, b);
    } else {
      var w, ok := GuardedEvicted(p, item, max, height, protection, b);
    }
  }

  // ── After replace-by-fee ──

  lemma CheapTwice(p: Pool, ids: seq<Id>, s: set<Id>, who: set<Id>, rate: nat)
    requires Edged(p)
    ensures CheapWithout(RemoveSeq(p, ids), s, who - Elems(ids), rate) == CheapWithout(p, Elems(ids) + s, who, rate)
  {
    RemoveSeqKeys(p, ids);
    forall b | b in RemoveSeq(p, ids).items
      ensures b in p.items && ScoreWithout(RemoveSeq(p, ids), s, b) == ScoreWithout(p, Elems(ids) + s, b)
    {
      ScoreWithoutTwice(p, ids, s, b);
    }
  }

  lemma RoomyTwice(p: Pool, ids: seq<Id>, s: set<Id>, cost: U64, max: U64)
    requires Counted(p) && Elems(ids) <= p.items.Keys
    ensures Roomy(RemoveSeq(p, ids), s, cost, max) <==> Roomy(p, Elems(ids) + s, cost, max)
  {
    var keys := RemoveSeq(p, ids).items.Keys;
    RemoveSeqKeys(p, ids);
    RoomyAfter(p, ids, s * keys, cost, max);
    assert s * keys * keys == s * keys && (Elems(ids) + s * keys) * p.items.Keys == (Elems(ids) + s) * p.items.Keys;
  }

  lemma DemandTwice(p: Pool, ids: seq<Id>, n: Demand)
    ensures Exposed(RemoveSeq(p, ids), n) == Exposed(p, n) - Elems(ids)
    ensures Guarded(RemoveSeq(p, ids), n) == Guarded(p, n) - Elems(ids)
  {
    ShieldedAfter(p, ids, n.height, n.protection);
    RemoveSeqKeys(p, ids);
  }

  lemma ExposedTwice(p: Pool, ids: seq<Id>, n: Demand, b: Id)
    requires Edged(p) && Counted(p) && Elems(ids) <= p.items.Keys && b in p.items && b in RemoveSeq(p, ids).items
    ensures ExposedSecure(RemoveSeq(p, ids), {}, n, b) <==> ExposedSecure(p, Elems(ids), n, b)
  {
    var q, score := RemoveSeq(p, ids), ScoreWithout(p, Elems(ids), b);
    assert Elems(ids) + {} == Elems(ids);
    ScoreWithoutTwice(p, ids, {}, b);
    DemandTwice(p, ids, n);
    CheapTwice(p, ids, {}, Exposed(p, n), score);
    var cheap := CheapWithout(p, Elems(ids), Exposed(p, n), score);
    assert {} + cheap == cheap;
    RoomyTwice(p, ids, cheap, n.cost, n.max);
  }

  lemma GuardedTwice(p: Pool, ids: seq<Id>, n: Demand, b: Id)
    requires Edged(p) && Counted(p) && Elems(ids) <= p.items.Keys && b in p.items && b in RemoveSeq(p, ids).items
    ensures GuardedSecure(RemoveSeq(p, ids), {}, n, b) <==> GuardedSecure(p, Elems(ids), n, b)
  {
    var q := RemoveSeq(p, ids);
    DemandTwice(p, ids, n);
    var all, left := Elems(ids) + Exposed(p, n), Exposed(q, n);
    assert {} + left == left && Elems(ids) + left == all && left - {} == Exposed(p, n) - Elems(ids);
    ScoreWithoutTwice(p, ids, left, b);
    var score := ScoreWithout(p, all, b);
    assert Elems(ids) + {} == Elems(ids);
    CheapTwice(p, ids, {}, Exposed(p, n), n.rate);
    CheapTwice(p, ids, left, Guarded(p, n), score);
    var cheap := CheapWithout(p, all, Guarded(p, n), score);
    RoomyTwice(p, ids, left + cheap, n.cost, n.max);
    assert Elems(ids) + (left + cheap) == all + cheap;
  }

  lemma SecureTwice(p: Pool, ids: seq<Id>, n: Demand, b: Id)
    requires Edged(p) && Counted(p) && Elems(ids) <= p.items.Keys && b in p.items && b in RemoveSeq(p, ids).items
    ensures Secure(RemoveSeq(p, ids), {}, n, b) <==> Secure(p, Elems(ids), n, b)
  {
    DemandTwice(p, ids, n);
    RemoveSeqKeys(p, ids);
    ExposedTwice(p, ids, n, b);
    GuardedTwice(p, ids, n, b);
  }

  // ── One commit ──

  function DemandAt(c: Candidate, v: Chainview, cfg: Config): Demand {
    Demand(c.Cost(), c.Rate(), NearExpiry(c.window.beforeHeight, v.height, cfg.protection), cfg.maxTotalCost, v.height, cfg.protection)
  }

  /** Known before the commit: not in conflict, not below anything in conflict, and secure without those. */
  ghost predicate Survives(p: Pool, c: Candidate, v: Chainview, cfg: Config, b: Id)
    requires b in p.items
  {
    b !in ConflictTrees(p, c) && Secure(p, ConflictTrees(p, c), DemandAt(c, v, cfg), b)
  }

  /** A set of items closed under child edges can be listed children first. */
  lemma SweepExists(p: Pool, s: set<Id>) returns (xs: seq<Id>)
    requires Edged(p) && Acyclic(p.dependencies) && s <= p.items.Keys && forall x :: x in s ==> Succ(p.dependents, x) <= s
    ensures Swept(p, xs) && Elems(xs) == s
  {
    var rank: Id -> nat, bound: nat :| Ranked(p.dependencies, rank, bound);
    forall b ensures rank(b) <= bound {}
    var key: map<Id, Key> := map b | b in p.items :: [bound - rank(b)];
    xs := SortedExists(key, s);
    forall i | 0 <= i < |xs| ensures Succ(p.dependents, xs[i]) <= Elems(xs[..i]) {
      assert xs[i] in Elems(xs);
      ChildRank(p, rank, bound, xs[i]);
      forall c | c in Succ(p.dependents, xs[i]) ensures c in Elems(xs[..i]) {
        LessOne(bound - rank(c), bound - rank(xs[i]));
        ListedBefore(key, xs, i, c);
      }
    }
  }

  /** In a sorted list whatever has a smaller key comes earlier. */
  lemma ListedBefore(key: map<Id, Key>, xs: seq<Id>, i: nat, x: Id)
    requires SortedBy(key, xs) && i < |xs| && x in Elems(xs) && x in key && xs[i] in key && Less(key[x], key[xs[i]])
    ensures x in Elems(xs[..i])
  {
    var j :| 0 <= j < |xs| && xs[j] == x;
    PrefixHas(xs, i);
    LessTotal(key[x], key[x]);
  }

  lemma ConflictTreesActive(p: Pool, c: Candidate)
    requires CoinsTrue(p) && Edged(p)
    ensures ConflictTrees(p, c) <= p.items.Keys
    ensures forall x :: x in ConflictTrees(p, c) ==> Succ(p.dependents, x) <= ConflictTrees(p, c)
  {
    ConflictsActive(p, c);
    ReachCovers(p.dependents, {}, Elems(Conflicts(p, c)));
    forall x ensures Succ(p.dependents, x) <= p.items.Keys { ChildrenActive(p, x); }
    ReachLeast(p.dependents, {}, Elems(Conflicts(p, c)), p.items.Keys);
  }

  lemma RoomExists(q: Pool, item: Item, v: Chainview, cfg: Config) returns (w: Eviction, ok: bool)
    ensures w.k <= |w.exposed| && w.m <= |w.shielded| && RoomMade(q, item, v, cfg, w, ok)
  {
    if Fits(q, item.virtualCost, cfg.maxTotalCost) {
      w, ok := NO_EVICTION, true;
    } else if item.virtualCost > cfg.maxTotalCost {
      w, ok := NO_EVICTION, false;
    } else {
      var xs := SortedExists(ScoreKeys(q.items), q.items.Keys - Shielded(q.items, v.height, cfg.protection));
      SqueezeStarts(q, xs, item.fpc, item.virtualCost, cfg.maxTotalCost);
      var k, passed := SqueezeRuns(q, xs, 0, item.fpc, item.virtualCost, cfg.maxTotalCost);
      w, ok := CallExists(q, item, cfg.maxTotalCost, v.height, cfg.protection, xs, k, passed);
    }
  }

  /** Making room spares what is secure ... */
  lemma RoomSpares(q: Pool, item: Item, v: Chainview, cfg: Config, w: Eviction, ok: bool, b: Id)
    requires Edged(q) && Counted(q) && cfg.maxTotalCost < U64_MAX && b in q.items
    requires Secure(q, {}, DemandOf(item, cfg.maxTotalCost, v.height, cfg.protection), b)
    requires w.k <= |w.exposed| && w.m <= |w.shielded| && RoomMade(q, item, v, cfg, w, ok)
    ensures b !in Evicted(w)
  {
    if !Fits(q, item.virtualCost, cfg.maxTotalCost) && b in Evicted(w) {
      EvictedInsecure(q, item, cfg.maxTotalCost, v.height, cfg.protection, w, ok, b);
    }
  }

  /** ... and may take what is not. */
  lemma RoomTakes(q: Pool, item: Item, v: Chainview, cfg: Config, b: Id) returns (w: Eviction, ok: bool)
    requires Edged(q) && Counted(q) && cfg.maxTotalCost < U64_MAX && b in q.items
    requires !Secure(q, {}, DemandOf(item, cfg.maxTotalCost, v.height, cfg.protection), b)
    ensures w.k <= |w.exposed| && w.m <= |w.shielded| && RoomMade(q, item, v, cfg, w, ok) && b in Evicted(w)
  {
    var n := DemandOf(item, cfg.maxTotalCost, v.height, cfg.protection);
    if Fits(q, item.virtualCost, cfg.maxTotalCost) { SecureWhenFits(q, n, b); }
    if b in Exposed(q, n) {
      w, ok := ExposedEvicted(q, item, cfg.maxTotalCost, v.height, cfg.protection, b);
    } else {
      w, ok := GuardedEvicted(q, item, cfg.maxTotalCost, v.height, cfg.protection, b);
    }
  }

  lemma SecureWhenFits(q: Pool, n: Demand, b: Id)
    requires n.max < U64_MAX && b in q.items && Fits(q, n.cost, n.max)
    ensures Secure(q, {}, n, b)
  {
    assert {} * q.items.Keys == {};
    assert Roomy(q, {}, n.cost, n.max);
    RoomyMono(q, {}, {} + CheapWithout(q, {}, Exposed(q, n), ScoreWithout(q, {}, b)), n.cost, n.max);
    var all := {} + Exposed(q, n);
    RoomyMono(q, {}, all + CheapWithout(q, all, Guarded(q, n), ScoreWithout(q, all, b)), n.cost, n.max);
  }

  lemma AfterReplacement(p: Pool, c: Candidate, v: Chainview, cfg: Config, replaced: seq<Id>, b: Id)
    requires Sound(p) && Replaced(p, c, replaced) && b in p.items && b !in ConflictTrees(p, c)
    ensures var q := RemoveSeq(p, replaced);
      && Edged(q) && Counted(q) && b in q.items
      && (Secure(q, {}, DemandOf(Built(p, q, c, v), cfg.maxTotalCost, v.height, cfg.protection), b)
          <==> Secure(p, ConflictTrees(p, c), DemandAt(c, v, cfg), b))
  {
    RemoveSeqChildren(p, replaced, b);
    RemoveSeqCounted(p, replaced);
    RemoveSeqKeys(p, replaced);
    SecureTwice(p, replaced, DemandAt(c, v, cfg), b);
  }

  lemma SparedBy(p: Pool, c: Candidate, v: Chainview, cfg: Config, d: Displaced, ok: bool, b: Id)
    requires Sound(p) && cfg.maxTotalCost < U64_MAX && b in p.items && Survives(p, c, v, cfg, b)
    requires Replaces(p, c, v, cfg, d, ok)
    ensures b !in Elems(Gone(d))
  {
    AfterReplacement(p, c, v, cfg, d.replaced, b);
    var q := RemoveSeq(p, d.replaced);
    RoomSpares(q, Built(p, q, c, v), v, cfg, d.squeezed, ok, b);
    ElemsConcat(d.replaced, Evicted(d.squeezed));
    assert b !in Elems(d.replaced) && b !in Evicted(d.squeezed);
  }

  lemma DisplacedBy(p: Pool, c: Candidate, v: Chainview, cfg: Config, b: Id) returns (d: Displaced, ok: bool)
    requires Sound(p) && cfg.maxTotalCost < U64_MAX && b in p.items && !Survives(p, c, v, cfg, b)
    ensures Replaces(p, c, v, cfg, d, ok) && b in Elems(Gone(d))
  {
    ConflictTreesActive(p, c);
    var replaced := SweepExists(p, ConflictTrees(p, c));
    var q := RemoveSeq(p, replaced);
    var w;
    if b in ConflictTrees(p, c) {
      w, ok := RoomExists(q, Built(p, q, c, v), v, cfg);
    } else {
      AfterReplacement(p, c, v, cfg, replaced, b);
      w, ok := RoomTakes(q, Built(p, q, c, v), v, cfg, b);
    }
    d := Displaced(replaced, w);
    ElemsConcat(replaced, Evicted(w));
  }

  /** An active item survives a commit, whatever the hash maps do, exactly when the pool beforehand says so. */
  lemma SurvivesIff(p: Pool, c: Candidate, v: Chainview, cfg: Config, b: Id)
    requires Sound(p) && cfg.maxTotalCost < U64_MAX && b in p.items
    ensures (forall d, ok :: Replaces(p, c, v, cfg, d, ok) ==> b !in Elems(Gone(d))) <==> Survives(p, c, v, cfg, b)
  {
    if Survives(p, c, v, cfg, b) {
      forall d, ok | Replaces(p, c, v, cfg, d, ok) ensures b !in Elems(Gone(d)) { SparedBy(p, c, v, cfg, d, ok, b); }
    } else {
      var d, ok := DisplacedBy(p, c, v, cfg, b);
    }
  }

  // ── Whose children go first ──

  /** Once `gone` is gone, `k` is taken strictly before `b` under every order of ties. */
  ghost predicate GoesFirst(p: Pool, gone: set<Id>, n: Demand, k: Id, b: Id)
    requires k in p.items && b in p.items
  {
    if b in Exposed(p, n) then
      k in Exposed(p, n) && ScoreWithout(p, gone, k) < ScoreWithout(p, gone, b)
    else
      var all := gone + Exposed(p, n);
      k in Exposed(p, n) || ScoreWithout(p, all, k) < ScoreWithout(p, all, b)
  }

  /** Everyone taken has no children left, or only such as go first. */
  ghost predicate AllGoFirst(p: Pool, trees: set<Id>, n: Demand, taken: set<Id>) {
    forall b, k :: b in taken && k in Succ(p.dependents, b) && k !in trees ==>
      b in p.items && k in p.items && GoesFirst(p, trees, n, k, b)
  }

  /** Whoever may have to make room. */
  ghost function AtRisk(p: Pool, c: Candidate, v: Chainview, cfg: Config): set<Id> {
    set b | b in p.items && b !in ConflictTrees(p, c) && !Survives(p, c, v, cfg, b)
  }

  /** Known before the commit: whoever may have to make room has no children left then, or only such as go first. */
  ghost predicate ChildrenGoFirst(p: Pool, c: Candidate, v: Chainview, cfg: Config) {
    AllGoFirst(p, ConflictTrees(p, c), DemandAt(c, v, cfg), AtRisk(p, c, v, cfg))
  }

  lemma PassSwept(q: Pool, cands: seq<Id>, k: nat, rate: U128, vc: U64, max: U64, ok: bool)
    requires Squeezed(q, cands, k, rate, vc, max, ok)
    requires forall i, c :: 0 <= i < k && c in Succ(q.dependents, cands[i]) ==>
      cands[i] in q.items && c in Cheap(q, Elems(cands), q.items[cands[i]].descendantScore)
    ensures Swept(q, cands[..k])
  {
    PrefixWithin(cands, k);
    forall i | 0 <= i < k ensures Succ(q.dependents, cands[..k][i]) <= Elems(cands[..k][..i]) {
      CheaperBefore(q, cands, i);
      assert cands[..k][..i] == cands[..i];
    }
  }

  /** After the removals `ids`, `c` is due before `b` in the pass over `who`. */
  ghost predicate Due(p: Pool, gone: set<Id>, who: set<Id>, c: Id, b: Id) {
    && c in p.items && b in p.items && c in who
    && ScoreWithout(p, gone, c) < ScoreWithout(p, gone, b)
  }

  lemma DueCheaper(p: Pool, ids: seq<Id>, who: set<Id>, c: Id, b: Id)
    requires Edged(p) && b in RemoveSeq(p, ids).items && c in Succ(RemoveSeq(p, ids).dependents, b)
    requires c !in Elems(ids) ==> Due(p, Elems(ids), who, c, b)
    ensures c in Cheap(RemoveSeq(p, ids), who, RemoveSeq(p, ids).items[b].descendantScore)
  {
    RemoveSeqKeys(p, ids);
    RemoveSeqChildren(p, ids, b);
    ChildrenActive(RemoveSeq(p, ids), b);
    RemoveSeqScore(p, ids, b);
    RemoveSeqScore(p, ids, c);
  }

  lemma PassAfter(p: Pool, ids: seq<Id>, cands: seq<Id>, k: nat, n: Demand, ok: bool)
    requires Edged(p) && Squeezed(RemoveSeq(p, ids), cands, k, n.rate, n.cost, n.max, ok)
    requires forall i, c :: 0 <= i < k && c in Succ(p.dependents, cands[i]) && c !in Elems(ids) ==>
      Due(p, Elems(ids), Elems(cands), c, cands[i])
    ensures Swept(RemoveSeq(p, ids), cands[..k])
  {
    var q := RemoveSeq(p, ids);
    forall i, c | 0 <= i < k && c in Succ(q.dependents, cands[i])
      ensures cands[i] in q.items && c in Cheap(q, Elems(cands), q.items[cands[i]].descendantScore)
    {
      assert cands[i] in Elems(cands);
      RemoveSeqChildren(p, ids, cands[i]);
      DueCheaper(p, ids, Elems(cands), c, cands[i]);
    }
    PassSwept(q, cands, k, n.rate, n.cost, n.max, ok);
  }

  lemma GoneInsecure(p: Pool, c: Candidate, v: Chainview, cfg: Config, d: Displaced, ok: bool, b: Id)
    requires Sound(p) && cfg.maxTotalCost < U64_MAX && Replaces(p, c, v, cfg, d, ok) && b in p.items && b in Elems(Gone(d))
    ensures !Survives(p, c, v, cfg, b)
  {
    if Survives(p, c, v, cfg, b) { SparedBy(p, c, v, cfg, d, ok, b); }
  }

  /** Whoever was squeezed out could be, and so its children go first. */
  lemma TakenGoFirst(p: Pool, c: Candidate, v: Chainview, cfg: Config, d: Displaced, ok: bool, taken: set<Id>)
    requires Sound(p) && cfg.maxTotalCost < U64_MAX && Replaces(p, c, v, cfg, d, ok) && ChildrenGoFirst(p, c, v, cfg)
    requires taken <= Elems(Evicted(d.squeezed))
    ensures AllGoFirst(p, ConflictTrees(p, c), DemandAt(c, v, cfg), taken)
  {
    ElemsConcat(d.replaced, Evicted(d.squeezed));
    GoneActive(p, c, v, cfg, d, ok);
    EvictedLater(p, c, v, cfg, d, ok);
    forall b | b in taken ensures b in AtRisk(p, c, v, cfg) {
      GoneInsecure(p, c, v, cfg, d, ok, b);
    }
    FewerGoFirst(p, ConflictTrees(p, c), DemandAt(c, v, cfg), taken, AtRisk(p, c, v, cfg));
  }

  lemma FewerGoFirst(p: Pool, trees: set<Id>, n: Demand, taken: set<Id>, more: set<Id>)
    requires taken <= more && AllGoFirst(p, trees, n, more)
    ensures AllGoFirst(p, trees, n, taken)
  {
  }

  lemma EvictedLater(p: Pool, c: Candidate, v: Chainview, cfg: Config, d: Displaced, ok: bool)
    requires CoinsTrue(p) && Replaces(p, c, v, cfg, d, ok)
    ensures Elems(Evicted(d.squeezed)) !! ConflictTrees(p, c)
  {
    var q := RemoveSeq(p, d.replaced);
    RemoveSeqKeys(p, d.replaced);
    EvictedActive(q, Built(p, q, c, v), v, cfg, d.squeezed, ok);
  }

  /** What the first pass of a commit works on, if it squeezes anybody. */
  lemma FirstPassAt(p: Pool, c: Candidate, v: Chainview, cfg: Config, d: Displaced, ok: bool)
    requires CoinsTrue(p) && Replaces(p, c, v, cfg, d, ok) && d.squeezed.k > 0
    ensures var w, n := d.squeezed, DemandAt(c, v, cfg);
      && Squeezed(RemoveSeq(p, d.replaced), w.exposed, w.k, n.rate, n.cost, n.max, w.exposedOk)
      && Elems(w.exposed) == Exposed(p, n) - Elems(d.replaced)
  {
    DemandTwice(p, d.replaced, DemandAt(c, v, cfg));
  }

  lemma DueFirst(p: Pool, trees: set<Id>, n: Demand, who: set<Id>, taken: set<Id>, b: Id, c: Id)
    requires AllGoFirst(p, trees, n, taken) && b in taken && b in who && c in Succ(p.dependents, b) && c !in trees
    requires who == Exposed(p, n) - trees
    ensures Due(p, trees, who, c, b)
  {
  }

  lemma DueSecond(p: Pool, trees: set<Id>, n: Demand, who: set<Id>, taken: set<Id>, b: Id, c: Id)
    requires AllGoFirst(p, trees, n, taken) && b in taken && b in who && c in Succ(p.dependents, b)
    requires c !in trees + Exposed(p, n) && who == Guarded(p, n) - (trees + Exposed(p, n))
    ensures Due(p, trees + Exposed(p, n), who, c, b)
  {
  }

  lemma FirstSwept(p: Pool, ids: seq<Id>, cands: seq<Id>, k: nat, n: Demand, ok: bool)
    requires Edged(p) && Squeezed(RemoveSeq(p, ids), cands, k, n.rate, n.cost, n.max, ok)
    requires Elems(cands) == Exposed(p, n) - Elems(ids) && AllGoFirst(p, Elems(ids), n, Elems(cands[..k]))
    ensures Swept(RemoveSeq(p, ids), cands[..k])
  {
    PrefixHas(cands, k);
    forall i, c | 0 <= i < k && c in Succ(p.dependents, cands[i]) && c !in Elems(ids)
      ensures Due(p, Elems(ids), Elems(cands), c, cands[i])
    {
      assert cands[i] in Elems(cands);
      DueFirst(p, Elems(ids), n, Elems(cands), Elems(cands[..k]), cands[i], c);
    }
    PassAfter(p, ids, cands, k, n, ok);
  }

  lemma SecondSwept(p: Pool, trees: set<Id>, ids: seq<Id>, cands: seq<Id>, k: nat, n: Demand, ok: bool)
    requires Edged(p) && Squeezed(RemoveSeq(p, ids), cands, k, n.rate, n.cost, n.max, ok)
    requires Elems(ids) == trees + Exposed(p, n) && Elems(cands) == Guarded(p, n) - Elems(ids)
    requires AllGoFirst(p, trees, n, Elems(cands[..k]))
    ensures Swept(RemoveSeq(p, ids), cands[..k])
  {
    PrefixHas(cands, k);
    forall i, c | 0 <= i < k && c in Succ(p.dependents, cands[i]) && c !in Elems(ids)
      ensures Due(p, Elems(ids), Elems(cands), c, cands[i])
    {
      assert cands[i] in Elems(cands);
      DueSecond(p, trees, n, Elems(cands), Elems(cands[..k]), cands[i], c);
    }
    PassAfter(p, ids, cands, k, n, ok);
  }

  /** What the second pass works on, if it squeezes anybody. */
  lemma SecondPassAt(p: Pool, c: Candidate, v: Chainview, cfg: Config, d: Displaced, ok: bool)
    requires CoinsTrue(p) && Replaces(p, c, v, cfg, d, ok) && d.squeezed.m > 0
    ensures var ids, w, n := d.replaced + First(d.squeezed), d.squeezed, DemandAt(c, v, cfg);
      && Elems(ids) == ConflictTrees(p, c) + Exposed(p, n)
      && Squeezed(RemoveSeq(p, ids), w.shielded, w.m, n.rate, n.cost, n.max, w.shieldedOk)
      && Elems(w.shielded) == Guarded(p, n) - Elems(ids)
  {
    SecondPassOf(p, d.replaced, Built(p, RemoveSeq(p, d.replaced), c, v), DemandAt(c, v, cfg), d.squeezed, ok);
  }

  lemma SecondPassOf(p: Pool, ids: seq<Id>, item: Item, n: Demand, w: Eviction, ok: bool)
    requires n == DemandOf(item, n.max, n.height, n.protection) && w.m > 0
    requires EvictedFor(RemoveSeq(p, ids), item, n.max, n.height, n.protection, w, ok)
    ensures Elems(ids + First(w)) == Elems(ids) + Exposed(p, n)
    ensures Squeezed(RemoveSeq(p, ids + First(w)), w.shielded, w.m, n.rate, n.cost, n.max, w.shieldedOk)
    ensures Elems(w.shielded) == Guarded(p, n) - Elems(ids + First(w))
  {
    SecondPassRan(RemoveSeq(p, ids), item, n.max, n.height, n.protection, w, ok);
    RemoveSeqConcat(p, ids, First(w));
    ElemsConcat(ids, First(w));
    DemandTwice(p, ids, n);
    DemandTwice(p, ids + First(w), n);
  }

  lemma FirstGone(p: Pool, c: Candidate, v: Chainview, cfg: Config, d: Displaced, ok: bool)
    requires Edged(p) && CoinsTrue(p) && Replaces(p, c, v, cfg, d, ok) && d.squeezed.k > 0
    requires AllGoFirst(p, Elems(d.replaced), DemandAt(c, v, cfg), Elems(d.squeezed.exposed[..d.squeezed.k]))
    ensures Swept(RemoveSeq(p, d.replaced), First(d.squeezed))
  {
    FirstPassAt(p, c, v, cfg, d, ok);
    FirstSwept(p, d.replaced, d.squeezed.exposed, d.squeezed.k, DemandAt(c, v, cfg), d.squeezed.exposedOk);
  }

  lemma SecondGone(p: Pool, c: Candidate, v: Chainview, cfg: Config, d: Displaced, ok: bool)
    requires Edged(p) && CoinsTrue(p) && Replaces(p, c, v, cfg, d, ok) && d.squeezed.m > 0
    requires AllGoFirst(p, ConflictTrees(p, c), DemandAt(c, v, cfg), Elems(d.squeezed.shielded[..d.squeezed.m]))
    ensures Swept(RemoveSeq(p, d.replaced + First(d.squeezed)), d.squeezed.shielded[..d.squeezed.m])
  {
    SecondPassAt(p, c, v, cfg, d, ok);
    SecondSwept(p, ConflictTrees(p, c), d.replaced + First(d.squeezed), d.squeezed.shielded, d.squeezed.m,
                DemandAt(c, v, cfg), d.squeezed.shieldedOk);
  }

  lemma NobodySwept(q: Pool, xs: seq<Id>)
    ensures Swept(q, xs[..0])
  {
    ElemsEmpty(xs[..0]);
  }

  /** Then everything a commit displaces goes children first, whatever the hash maps do. */
  lemma GoneSwept(p: Pool, c: Candidate, v: Chainview, cfg: Config, d: Displaced, ok: bool)
    requires Sound(p) && cfg.maxTotalCost < U64_MAX && Replaces(p, c, v, cfg, d, ok) && ChildrenGoFirst(p, c, v, cfg)
    ensures Swept(p, Gone(d))
  {
    ElemsConcat(First(d.squeezed), d.squeezed.shielded[..d.squeezed.m]);
    TakenGoFirst(p, c, v, cfg, d, ok, Elems(d.squeezed.exposed[..d.squeezed.k]));
    TakenGoFirst(p, c, v, cfg, d, ok, Elems(d.squeezed.shielded[..d.squeezed.m]));
    NobodySwept(RemoveSeq(p, d.replaced), d.squeezed.exposed);
    if d.squeezed.k > 0 { FirstGone(p, c, v, cfg, d, ok); }
    NobodySwept(RemoveSeq(p, d.replaced + First(d.squeezed)), d.squeezed.shielded);
    if d.squeezed.m > 0 { SecondGone(p, c, v, cfg, d, ok); }
    ThreeSwept(p, d);
  }

  lemma ThreeSwept(p: Pool, d: Displaced)
    requires d.squeezed.k <= |d.squeezed.exposed| && d.squeezed.m <= |d.squeezed.shielded|
    requires Edged(p) && Swept(p, d.replaced) && Swept(RemoveSeq(p, d.replaced), First(d.squeezed))
    requires Swept(RemoveSeq(p, d.replaced + First(d.squeezed)), d.squeezed.shielded[..d.squeezed.m])
    ensures Swept(p, Gone(d))
  {
    var xs, ys, zs := d.replaced, First(d.squeezed), d.squeezed.shielded[..d.squeezed.m];
    SweptAppend(p, xs, ys);
    SweptAppend(p, xs + ys, zs);
    assert xs + ys + zs == Gone(d);
  }

  // ── The newcomer's parents ──

  /** Known before the commit: none of the newcomer's parents can be displaced by it. */
  ghost predicate ParentsSpared(p: Pool, c: Candidate, v: Chainview, cfg: Config) {
    forall q :: q in ParentsOf(p, c, v) ==> q in p.items && Survives(p, c, v, cfg, q)
  }

  lemma OwnParentsStay(p: Pool, c: Candidate, v: Chainview, cfg: Config, d: Displaced, ok: bool)
    requires Sound(p) && cfg.maxTotalCost < U64_MAX && Replaces(p, c, v, cfg, d, ok) && ParentsSpared(p, c, v, cfg)
    ensures ParentsOf(p, c, v) !! Elems(Gone(d))
  {
    forall q | q in ParentsOf(p, c, v) ensures q !in Elems(Gone(d)) { SparedBy(p, c, v, cfg, d, ok, q); }
  }

  /** The newcomer keeps all its parents, whatever the hash maps do, exactly then. */
  lemma ParentsSurviveIff(p: Pool, c: Candidate, v: Chainview, cfg: Config)
    requires Sound(p) && cfg.maxTotalCost < U64_MAX
    ensures (forall d, ok :: Replaces(p, c, v, cfg, d, ok) ==> ParentsOf(p, c, v) <= RemoveSeq(p, Gone(d)).items.Keys)
       <==> ParentsSpared(p, c, v, cfg)
  {
    ParentsActive(p, c, v);
    if ParentsSpared(p, c, v, cfg) {
      forall d, ok | Replaces(p, c, v, cfg, d, ok) ensures ParentsOf(p, c, v) <= RemoveSeq(p, Gone(d)).items.Keys {
        OwnParentsStay(p, c, v, cfg, d, ok);
        RemoveSeqKeys(p, Gone(d));
      }
    } else {
      var q :| q in ParentsOf(p, c, v) && !Survives(p, c, v, cfg, q);
      var d, ok := DisplacedBy(p, c, v, cfg, q);
      RemoveSeqKeys(p, Gone(d));
      assert !(ParentsOf(p, c, v) <= RemoveSeq(p, Gone(d)).items.Keys);
    }
  }

  /** A newcomer that displaces one of its parents, in either way, enters the pool as an orphan. */
  lemma LostParentOrphans(p: Pool, c: Candidate, v: Chainview, cfg: Config, d: Displaced, r: Pool, q: Id)
    requires CoinsTrue(p) && Commits(p, c, v, cfg, d, r, None) && c.id !in p.items && Refusal(p, c, v, cfg).None?
    requires q in ParentsOf(p, c, v) && q in Elems(Gone(d))
    ensures c.id in r.items && q in r.items[c.id].dependsOn && q !in r.items
  {
    var r0, item := RemoveSeq(p, Gone(d)), Built(p, RemoveSeq(p, d.replaced), c, v);
    ParentsActive(p, c, v);
    BuiltFields(p, RemoveSeq(p, d.replaced), c, v);
    RemoveSeqKeys(p, Gone(d));
    AdmitItems(r0, item);
    AlikeFields(r.items, r0.items[item.id := item], c.id);
  }

  /** In particular one whose parent is in conflict with it, or depends on something that is. */
  lemma ReplacingParentOrphans(p: Pool, c: Candidate, v: Chainview, cfg: Config, d: Displaced, r: Pool, q: Id)
    requires CoinsTrue(p) && Commits(p, c, v, cfg, d, r, None) && c.id !in p.items
    requires q in ParentsOf(p, c, v) && q in ConflictTrees(p, c)
    ensures c.id in r.items && q in r.items[c.id].dependsOn && q !in r.items
  {
    ElemsConcat(d.replaced, Evicted(d.squeezed));
    LostParentOrphans(p, c, v, cfg, d, r, q);
  }
}
