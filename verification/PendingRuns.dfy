/**
 * Whole runs of the pending pool: submissions, blocks, resets, and the re-insertion of a snapshot into whatever
 * the pool has become since it was cleared (src/pools/pending.rs, src/mempool/persistence.rs:134-163).
 */
module PendingRuns {
  import opened Prelude
  import opened Items
  import opened Sums
  import opened PoolInvariants
  import opened PendingPools
  import opened Persistence
  import opened Reinsertions
  import PoolState

  // ── What a re-insertion amounts to ──

  /** Both pools in one; where they disagree the second one counts, but both costs are paid. */
  ghost function Merged(q: Pending, s: Pending): Pending { Pending(q.items + s.items, q.index + s.index, SatAdd(q.cost, s.cost)) }

  lemma MergeOne(q: Pending, s: Pending, item: Item)
    ensures Merged(q, PendingInsert(s, item)) == PendingInsert(Merged(q, s), item)
  {
    PlusOne(q.items, s.items, item);
    assert q.index + (s.index + PoolState.Owned(item.removals, item.id)) == q.index + s.index + PoolState.Owned(item.removals, item.id);
  }

  lemma {:induction false} InsertedAllMerge(q: Pending, xs: seq<Item>)
    ensures PendingInsertAll(q, xs) == Merged(q, PendingRebuild(xs))
  {
    if xs == [] {
      assert q.items + map[] == q.items && q.index + map[] == q.index;
    } else {
      InsertedAllMerge(q, xs[..|xs| - 1]);
      MergeOne(q, PendingRebuild(xs[..|xs| - 1]), xs[|xs| - 1]);
    }
  }

  /** Whatever the order of the listing. */
  lemma ReinsertedMerge(q: Pending, s: Pending, xs: seq<Item>)
    requires PendingSound(s) && Listing(s.items, xs)
    ensures PendingInsertAll(q, xs) == Merged(q, s)
  {
    InsertedAllMerge(q, xs);
    PendingRoundTrip(s, xs);
  }

  // ── When it is safe ──

  /**
   * Of an item that waits already: if it is not in the snapshot, none of its coins is spent there; if it is, it
   * costs nothing and all its coins are.
   */
  ghost predicate Agrees(q: Pending, s: Pending, a: Id)
    requires a in q.items
  {
    if a in s.items then q.items[a].virtualCost == 0 && Elems(q.items[a].removals) <= s.index.Keys
    else Elems(q.items[a].removals) !! s.index.Keys
  }

  /** Known before the act: everybody agrees, and both limits have room for all. */
  ghost predicate PendingReinsertable(q: Pending, s: Pending, limits: Limits) {
    && (forall a :: a in q.items ==> Agrees(q, s, a))
    && q.cost + s.cost <= limits.maxCost && |q.items + s.items| <= limits.maxCount
  }

  /** The owners of a merged index, and whose coins it names. */
  lemma OverlayIndex(qi: map<CoinId, Id>, qo: map<Id, set<CoinId>>, si: map<CoinId, Id>, so: map<Id, set<CoinId>>)
    requires IndexTrue(qi, qo) && IndexFull(qi, qo) && IndexTrue(si, so) && IndexFull(si, so)
    requires forall a :: a in qo ==> if a in so then qo[a] <= si.Keys else qo[a] !! si.Keys
    ensures IndexTrue(qi + si, qo + so) && IndexFull(qi + si, qo + so)
  {
    forall c | c in qi + si ensures (qi + si)[c] in qo + so && c in (qo + so)[(qi + si)[c]] {
      if c in si { assert c in so[si[c]]; } else { assert c in qo[qi[c]]; }
    }
    forall a, c | a in qo + so && c in (qo + so)[a] ensures c in qi + si && (qi + si)[c] == a {
      if a in so { assert c in so[a]; } else { assert c in qo[a]; }
    }
  }

  lemma OverlayWhen(qi: map<CoinId, Id>, qo: map<Id, set<CoinId>>, si: map<CoinId, Id>, so: map<Id, set<CoinId>>, a: Id)
    requires IndexTrue(qi, qo) && IndexFull(qi, qo) && IndexTrue(si, so) && IndexFull(si, so)
    requires IndexTrue(qi + si, qo + so) && IndexFull(qi + si, qo + so) && a in qo
    ensures if a in so then qo[a] <= si.Keys else qo[a] !! si.Keys
  {
    forall c | c in qo[a] ensures a in so <==> c in si {
      assert qi[c] == a && (qo + so)[a] == if a in so then so[a] else qo[a];
      assert c in si ==> (qi + si)[c] == si[c] && si[c] in so;
      assert c !in si ==> (qi + si)[c] == a && c in (qo + so)[a];
    }
  }

  lemma RemovalsBoth(a: map<Id, Item>, b: map<Id, Item>)
    ensures Removals(a + b) == Removals(a) + Removals(b)
  {
  }

  lemma MergedTrue(q: Pending, s: Pending)
    requires PendingSound(q) && PendingSound(s) && forall a :: a in q.items ==> Agrees(q, s, a)
    ensures IndexTrue(Merged(q, s).index, Removals(Merged(q, s).items)) && IndexFull(Merged(q, s).index, Removals(Merged(q, s).items))
  {
    RemovalsBoth(q.items, s.items);
    forall a | a in Removals(q.items)
      ensures if a in Removals(s.items) then Removals(q.items)[a] <= s.index.Keys else Removals(q.items)[a] !! s.index.Keys
    {
      assert Agrees(q, s, a);
    }
    OverlayIndex(q.index, Removals(q.items), s.index, Removals(s.items));
  }

  lemma AgreesWhen(q: Pending, s: Pending, a: Id)
    requires PendingSound(q) && PendingSound(s) && a in q.items && (a in s.items ==> q.items[a].virtualCost == 0)
    requires IndexTrue(Merged(q, s).index, Removals(Merged(q, s).items)) && IndexFull(Merged(q, s).index, Removals(Merged(q, s).items))
    ensures Agrees(q, s, a)
  {
    RemovalsBoth(q.items, s.items);
    assert Removals(q.items)[a] == Elems(q.items[a].removals);
    OverlayWhen(q.index, Removals(q.items), s.index, Removals(s.items), a);
  }

  /** Paying twice shows in the total exactly when there is something to pay. */
  lemma MergedCost(q: Pending, s: Pending)
    requires q.cost == Total(Costs(q.items)) && s.cost == Total(Costs(s.items)) && q.cost + s.cost <= U64_MAX
    ensures Merged(q, s).cost == Total(Costs(Merged(q, s).items)) <==> Weightless(q.items, s.items)
  {
    CostsBoth(q.items, s.items);
    OverlaySum(Costs(q.items), Costs(s.items));
    SharedCosts(q.items, s.items);
    assert Costs(q.items).Keys == q.items.Keys && Costs(s.items).Keys == s.items.Keys;
  }

  lemma MergedKeyed(a: map<Id, Item>, b: map<Id, Item>)
    requires Keyed(a) && Keyed(b)
    ensures Keyed(a + b)
  {
  }

  lemma MergedSafe(q: Pending, s: Pending, limits: Limits)
    requires PendingSound(q) && PendingSound(s) && limits.maxCost < U64_MAX && PendingReinsertable(q, s, limits)
    ensures PendingSound(Merged(q, s)) && Within(Merged(q, s), limits)
  {
    forall a | a in q.items && a in s.items ensures q.items[a].virtualCost == 0 { assert Agrees(q, s, a); }
    MergedCost(q, s);
    MergedTrue(q, s);
    MergedKeyed(q.items, s.items);
  }

  lemma MergedWhen(q: Pending, s: Pending, limits: Limits)
    requires PendingSound(q) && PendingSound(s) && limits.maxCost < U64_MAX
    requires PendingSound(Merged(q, s)) && Within(Merged(q, s), limits)
    ensures PendingReinsertable(q, s, limits)
  {
    MergedCost(q, s);
    forall a | a in q.items ensures Agrees(q, s, a) { AgreesWhen(q, s, a); }
  }

  /** A re-insertion keeps index and cost exact and both limits exactly then. */
  lemma PendingReinsertionSafeIff(q: Pending, s: Pending, xs: seq<Item>, limits: Limits)
    requires PendingSound(q) && PendingSound(s) && Listing(s.items, xs) && limits.maxCost < U64_MAX
    ensures PendingSound(PendingInsertAll(q, xs)) && Within(PendingInsertAll(q, xs), limits) <==> PendingReinsertable(q, s, limits)
  {
    ReinsertedMerge(q, s, xs);
    if PendingReinsertable(q, s, limits) {
      MergedSafe(q, s, limits);
    } else if PendingSound(Merged(q, s)) && Within(Merged(q, s), limits) {
      MergedWhen(q, s, limits);
    }
  }

  /** Into a pool that is still empty everything can be re-inserted. */
  lemma NothingReinsertable(s: Pending, limits: Limits)
    requires PendingSound(s) && Within(s, limits)
    ensures PendingReinsertable(NOTHING, s, limits)
  {
    assert NOTHING.items + s.items == s.items;
  }

  // ── Whole runs ──

  datatype PendingEvent =
    | Submission(item: Item)
    | Block(height: U64, timestamp: U64)
    | Reset
    | Reinsertion(snapshot: nat, listing: seq<Item>)

  /** The `i`-th event leads from the `i`-th state to the next; re-insertions name an earlier state. */
  ghost predicate PendingStep(states: seq<Pending>, limits: Limits, i: nat, e: PendingEvent)
    requires i + 1 < |states|
  {
    var s, r := states[i], states[i + 1];
    && PendingSound(s)
    && match e
       case Submission(item) => r == Submitted(s, item, limits).0
       case Block(h, t) => Drained(s, h, t, r)
       case Reset => r == NOTHING
       case Reinsertion(k, xs) => k <= i && Listing(states[k].items, xs) && r == PendingInsertAll(s, xs)
  }

  ghost predicate PendingRun(states: seq<Pending>, events: seq<PendingEvent>, limits: Limits) {
    && |states| == |events| + 1 && states[0] == NOTHING && limits.maxCost < U64_MAX
    && forall i :: 0 <= i < |events| ==> PendingStep(states, limits, i, events[i])
  }

  /** Known before the event. */
  ghost predicate PendingTimely(states: seq<Pending>, events: seq<PendingEvent>, limits: Limits, i: nat)
    requires i < |events| && |states| == |events| + 1
  {
    events[i].Reinsertion? ==>
      events[i].snapshot < |states| && PendingReinsertable(states[i], states[events[i].snapshot], limits)
  }

  ghost predicate AllPendingTimely(states: seq<Pending>, events: seq<PendingEvent>, limits: Limits) {
    |states| == |events| + 1 && forall i :: 0 <= i < |events| ==> PendingTimely(states, events, limits, i)
  }

  lemma ReinsertionNamed(states: seq<Pending>, events: seq<PendingEvent>, limits: Limits, k: nat)
    requires PendingRun(states, events, limits) && k < |events|
    ensures k + 1 < |states| && PendingSound(states[k])
    ensures events[k].Reinsertion? ==>
      var j, xs := events[k].snapshot, events[k].listing;
      j <= k && PendingSound(states[j]) && Listing(states[j].items, xs) && states[k + 1] == PendingInsertAll(states[k], xs)
  {
    assert PendingStep(states, limits, k, events[k]);
    if events[k].Reinsertion? { assert PendingStep(states, limits, events[k].snapshot, events[events[k].snapshot]); }
  }

  lemma PendingStepKeeps(states: seq<Pending>, events: seq<PendingEvent>, limits: Limits, k: nat)
    requires PendingRun(states, events, limits) && k < |events| && PendingTimely(states, events, limits, k)
    requires Within(states[k], limits)
    ensures PendingSound(states[k + 1]) && Within(states[k + 1], limits)
  {
    assert PendingStep(states, limits, k, events[k]);
    match events[k]
    case Submission(item) => SubmittedKeeps(states[k], item, limits);
    case Block(h, t) => DrainKeeps(states[k], h, t, states[k + 1], limits);
    case Reset => NothingSafe(limits);
    case Reinsertion(j, xs) =>
      ReinsertionNamed(states, events, limits, k);
      PendingReinsertionSafeIff(states[k], states[j], xs, limits);
  }

  /** Over every run of timely events: exact inverse index, disjoint removals, exact cost, both limits. */
  lemma {:induction false} PendingRunSafe(states: seq<Pending>, events: seq<PendingEvent>, limits: Limits, i: nat)
    requires PendingRun(states, events, limits) && AllPendingTimely(states, events, limits) && i < |states|
    ensures PendingSound(states[i]) && Within(states[i], limits)
  {
    if i == 0 {
      NothingSafe(limits);
    } else {
      var k: nat :| k + 1 == i;
      PendingRunSafe(states, events, limits, k);
      PendingStepKeeps(states, events, limits, k);
    }
  }

  /** And only then. */
  lemma PendingSafeEverIff(states: seq<Pending>, events: seq<PendingEvent>, limits: Limits)
    requires PendingRun(states, events, limits)
    ensures (forall i :: 0 <= i < |states| ==> PendingSound(states[i]) && Within(states[i], limits))
       <==> AllPendingTimely(states, events, limits)
  {
    if AllPendingTimely(states, events, limits) {
      forall i | 0 <= i < |states| ensures PendingSound(states[i]) && Within(states[i], limits) {
        PendingRunSafe(states, events, limits, i);
      }
    }
    if forall i :: 0 <= i < |states| ==> PendingSound(states[i]) && Within(states[i], limits) {
      forall k | 0 <= k < |events| ensures PendingTimely(states, events, limits, k) {
        ReinsertionNamed(states, events, limits, k);
        if events[k].Reinsertion? {
          PendingReinsertionSafeIff(states[k], states[events[k].snapshot], events[k].listing, limits);
        }
      }
    }
  }
}
