/** New blocks and percentage eviction (src/mempool/lifecycle.rs). */
module Lifecycle {
  import opened Prelude
  import opened Items
  import opened Graph
  import opened Sorting
  import opened PoolState
  import opened PoolInvariants
  import opened Cascades
  import opened Evictions
  import opened Descendants
  import Rbf
  import Timelocks
  import opened ActivePools
  import PendingPools
  import SeenCaches

  datatype Reason = Confirmed | CascadeEvicted(parent: Id) | Expired | CapacityEviction

  datatype Event = Event(id: Id, reason: Reason)

  // ── One cascade and its events ──

  /** The parent reported for a cascaded id: its entry in the map, else the root. */
  function ReportedParent(parents: map<Id, Id>, id: Id, root: Id): Id {
    if id in parents then parents[id] else root
  }

  /** The root's event first, then one event per dependent, in eviction order. */
  function EventsOf(evicted: seq<Id>, parents: map<Id, Id>, reason: Reason): seq<Event> {
    if evicted == [] then [] else
      var root := evicted[|evicted| - 1];
      [Event(root, reason)]
      + seq(|evicted| - 1, i requires 0 <= i < |evicted| - 1 =>
          Event(evicted[i], CascadeEvicted(ReportedParent(parents, evicted[i], root))))
  }

  /** Events name each evicted id once; a cascaded id names a direct parent evicted alongside it. */
  ghost predicate Accounts(g: Edges, evicted: seq<Id>, events: seq<Event>) {
    && |events| == |evicted|
    && (forall i :: 0 <= i < |events| ==> events[i].id in evicted)
    && (forall i, j :: 0 <= i < j < |events| ==> events[i].id != events[j].id)
    && (forall i :: 0 <= i < |events| && events[i].reason.CascadeEvicted? ==>
          events[i].reason.parent in evicted && events[i].id in Succ(g, events[i].reason.parent))
  }

  /** Whoever is not a cascade victim is one of `roots` and carries the given reason. */
  ghost predicate RootEvents(events: seq<Event>, reason: Reason, roots: set<Id>) {
    forall e :: e in events && !e.reason.CascadeEvicted? ==> e.reason == reason && e.id in roots
  }

  /** The cascade victims among the events, in order. */
  function Below(events: seq<Event>): seq<Id> {
    if events == [] then [] else
      var e := events[|events| - 1];
      Below(events[..|events| - 1]) + (if e.reason.CascadeEvicted? then [e.id] else [])
  }

  lemma {:induction false} BelowConcat(a: seq<Event>, b: seq<Event>)
    ensures Below(a + b) == Below(a) + Below(b)
  {
    if b == [] {
      assert a + b == a;
    } else {
      BelowConcat(a, b[..|b| - 1]);
      assert (a + b)[..|a + b| - 1] == a + b[..|b| - 1];
    }
  }

  lemma {:induction false} BelowAll(events: seq<Event>, ids: seq<Id>)
    requires |events| == |ids|
    requires forall i :: 0 <= i < |ids| ==> events[i].reason.CascadeEvicted? && events[i].id == ids[i]
    ensures Below(events) == ids
  {
    if ids != [] {
      BelowAll(events[..|ids| - 1], ids[..|ids| - 1]);
      assert ids == ids[..|ids| - 1] + [ids[|ids| - 1]];
    }
  }

  /** The cascade victims of one call are everything evicted but the root. */
  lemma BelowEvents(evicted: seq<Id>, parents: map<Id, Id>, reason: Reason)
    requires evicted != [] && !reason.CascadeEvicted?
    ensures Below(EventsOf(evicted, parents, reason)) == evicted[..|evicted| - 1]
  {
    var events := EventsOf(evicted, parents, reason);
    assert events == [events[0]] + events[1..];
    BelowConcat([events[0]], events[1..]);
    assert [events[0]][..0] == [] && Below([]) == [];
    BelowAll(events[1..], evicted[..|evicted| - 1]);
  }

  lemma RootEventsConcat(a: seq<Event>, b: seq<Event>, reason: Reason, roots: set<Id>, root: Id)
    requires RootEvents(a, reason, roots) && RootEvents(b, reason, {root})
    ensures RootEvents(a + b, reason, roots + {root})
  {
    assert forall e :: e in a + b <==> e in a || e in b;
  }

  lemma EventsRooted(evicted: seq<Id>, parents: map<Id, Id>, reason: Reason, root: Id)
    requires evicted != [] ==> evicted[|evicted| - 1] == root
    ensures RootEvents(EventsOf(evicted, parents, reason), reason, {root})
  {
  }

  /** The fallback to the root is never taken: every cascaded id has its direct parent in the map. */
  lemma FallbackUnused(p: Pool, root: Id, evicted: seq<Id>, parents: map<Id, Id>, i: nat)
    requires Edged(p) && CascadeOf(p, root, evicted) && IsParentMap(p.dependents, root, parents)
    requires root in p.items && i < |evicted| - 1
    ensures evicted[i] in parents && parents[evicted[i]] in evicted
    ensures evicted[i] in Succ(p.dependents, parents[evicted[i]])
  {
    ReachSelf(p.dependents, root);
    assert evicted[i] in Elems(evicted) && evicted[i] != evicted[|evicted| - 1];
    ParentActive(p, root, parents, parents[evicted[i]]);
    assert parents[evicted[i]] in Elems(evicted);
  }

  lemma EventIds(evicted: seq<Id>, parents: map<Id, Id>, reason: Reason)
    requires evicted != [] && NoDup(evicted)
    ensures var events := EventsOf(evicted, parents, reason);
      && |events| == |evicted|
      && (forall i :: 0 <= i < |events| ==> events[i].id in evicted)
      && (forall i, j :: 0 <= i < j < |events| ==> events[i].id != events[j].id)
  {
    var events := EventsOf(evicted, parents, reason);
    forall i | 0 <= i < |events|
      ensures events[i].id == if i == 0 then evicted[|evicted| - 1] else evicted[i - 1]
    {}
  }

  lemma EventsAccount(p: Pool, root: Id, evicted: seq<Id>, parents: map<Id, Id>, reason: Reason)
    requires Edged(p) && CascadeOf(p, root, evicted) && IsParentMap(p.dependents, root, parents)
    requires root in p.items && !reason.CascadeEvicted?
    ensures Accounts(p.dependents, evicted, EventsOf(evicted, parents, reason))
  {
    var events := EventsOf(evicted, parents, reason);
    EventIds(evicted, parents, reason);
    forall i | 0 <= i < |events| && events[i].reason.CascadeEvicted?
      ensures events[i].reason.parent in evicted && events[i].id in Succ(p.dependents, events[i].reason.parent)
    {
      FallbackUnused(p, root, evicted, parents, i - 1);
    }
  }

  lemma ParentActive(p: Pool, root: Id, parents: map<Id, Id>, q: Id)
    requires Edged(p) && IsParentMap(p.dependents, root, parents) && root in p.items && q in {root} + parents.Keys
    ensures q in Subtree(p, root)
  {
    ReachSelf(p.dependents, root);
    if q in parents { ChildrenActive(p, parents[q]); }
  }

  /** `cascade_evict_and_record`, with the parent map collected just before. */
  method CascadeAndRecord(pool: ActivePool, root: Id, reason: Reason)
    returns (events: seq<Event>, cascaded: seq<Id>, ghost evicted: seq<Id>)
    requires Sound(pool.Model()) && !reason.CascadeEvicted?
    modifies pool
    ensures pool.Model() == RemoveSeq(old(pool.Model()), evicted)
    ensures CascadeOf(old(pool.Model()), root, evicted)
    ensures root in old(pool.items) ==>
      Accounts(old(pool.dependents), evicted, events) && RootEvents(events, reason, {root})
    ensures root in old(pool.items) ==> RootFirst(evicted, events, root, reason)
    ensures evicted == [] ==> events == []
    ensures cascaded == Below(events)
  {
    ghost var p := pool.Model();
    var parents := CollectDescendantsParentMap(p, pool.dependents, root);
    var gone := pool.CascadeEvict(root);
    evicted := gone;
    events := EventsOf(gone, parents, reason);
    cascaded := if gone == [] then [] else gone[..|gone| - 1];
    if gone != [] { BelowEvents(gone, parents, reason); }
    if root in p.items {
      EventsAccount(p, root, gone, parents, reason);
      EventsRooted(gone, parents, reason, root);
      EventsListed(gone, parents, reason, root);
    }
  }

  /** The root is reported first and for its own reason, its dependents after it in the order of their eviction. */
  ghost predicate RootFirst(evicted: seq<Id>, events: seq<Event>, root: Id, reason: Reason) {
    && |events| == |evicted| > 0 && events[0] == Event(root, reason)
    && forall i :: 0 < i < |events| ==> events[i].id == evicted[i - 1] && events[i].reason.CascadeEvicted?
  }

  lemma EventsListed(evicted: seq<Id>, parents: map<Id, Id>, reason: Reason, root: Id)
    requires evicted != [] && evicted[|evicted| - 1] == root
    ensures RootFirst(evicted, EventsOf(evicted, parents, reason), root, reason)
  {
  }

  // ── Several cascades, one after the other ──

  /** State of a removal phase that began in `p`: `gone` is closed downwards and fully reported. */
  ghost predicate Phase(p: Pool, gone: seq<Id>, events: seq<Event>) {
    && Swept(p, gone)
    && Accounts(p.dependents, gone, events)
  }

  /** Phases compose. */
  lemma PhaseAppend(p: Pool, gone: seq<Id>, events: seq<Event>, more: seq<Id>, recorded: seq<Event>)
    requires Edged(p) && Phase(p, gone, events) && Phase(RemoveSeq(p, gone), more, recorded)
    ensures Phase(p, gone + more, events + recorded)
  {
    SweptAppend(p, gone, more);
    RemoveSeqItems(p, gone);
    AccountsConcat(p, gone, events, more, recorded);
  }

  lemma AccountsConcat(p: Pool, gone: seq<Id>, events: seq<Event>, more: seq<Id>, recorded: seq<Event>)
    requires Edged(p) && Elems(gone) !! Elems(more)
    requires Accounts(p.dependents, gone, events) && Accounts(RemoveSeq(p, gone).dependents, more, recorded)
    ensures Accounts(p.dependents, gone + more, events + recorded)
  {
    var all, out := events + recorded, gone + more;
    forall i, j | 0 <= i < j < |all| ensures all[i].id != all[j].id {
      if i < |events| <= j {
        assert events[i].id in Elems(gone) && recorded[j - |events|].id in Elems(more);
      }
    }
    forall i | 0 <= i < |all| && all[i].reason.CascadeEvicted?
      ensures all[i].reason.parent in out && all[i].id in Succ(p.dependents, all[i].reason.parent)
    {
      if i >= |events| {
        RemoveSeqChildren(p, gone, all[i].reason.parent);
      }
    }
  }

  /** Part-way through a phase over `roots`. */
  ghost predicate Sweeping(p: Pool, gone: seq<Id>, events: seq<Event>, reason: Reason, roots: set<Id>) {
    && Phase(p, gone, events)
    && RootEvents(events, reason, roots)
    && Elems(gone) <= Reach(p.dependents, {}, roots)
  }

  /** Cascades from every root in turn; roots swept away by an earlier cascade are skipped over. */
  method EvictRoots(pool: ActivePool, roots: seq<Id>, reason: Reason)
    returns (events: seq<Event>, cascaded: seq<Id>, ghost gone: seq<Id>)
    requires Sound(pool.Model()) && Elems(roots) <= pool.items.Keys && !reason.CascadeEvicted?
    modifies pool
    ensures pool.Model() == RemoveSeq(old(pool.Model()), gone)
    ensures Phase(old(pool.Model()), gone, events) && RootEvents(events, reason, Elems(roots))
    ensures Elems(gone) == Reach(old(pool.dependents), {}, Elems(roots))
    ensures cascaded == Below(events)
  {
    ghost var p := pool.Model();
    events, cascaded, gone := [], [], [];
    for i := 0 to |roots|
      invariant pool.Model() == RemoveSeq(p, gone)
      invariant Sweeping(p, gone, events, reason, Elems(roots))
      invariant Elems(roots[..i]) <= Elems(gone) && cascaded == Below(events)
    {
      PrefixElems(roots, i);
      events, cascaded, gone := EvictRoot(pool, p, gone, events, cascaded, roots[i], reason, Elems(roots));
    }
    WholePrefix(roots);
    SweptIsSubtrees(p, gone, Elems(roots));
  }

  /** One root of a phase. */
  method EvictRoot(pool: ActivePool, ghost p: Pool, ghost before: seq<Id>, soFar: seq<Event>, below: seq<Id>,
                   root: Id, reason: Reason, ghost roots: set<Id>)
    returns (events: seq<Event>, cascaded: seq<Id>, ghost gone: seq<Id>)
    requires Sound(p) && pool.Model() == RemoveSeq(p, before) && Sweeping(p, before, soFar, reason, roots)
    requires root in p.items && root in roots && !reason.CascadeEvicted? && below == Below(soFar)
    modifies pool
    ensures pool.Model() == RemoveSeq(p, gone) && Sweeping(p, gone, events, reason, roots)
    ensures Elems(before) + {root} <= Elems(gone) && cascaded == Below(events)
  {
    ghost var q := pool.Model();
    RemoveSeqSound(p, before);
    var recorded, dependents;
    ghost var more;
    recorded, dependents, more := CascadeAndRecord(pool, root, reason);
    RemoveSeqConcat(p, before, more);
    SweepOne(p, before, soFar, root, reason, roots, more, recorded);
    BelowConcat(soFar, recorded);
    events, cascaded, gone := soFar + recorded, below + dependents, before + more;
  }

  lemma SweepOne(p: Pool, gone: seq<Id>, events: seq<Event>, root: Id, reason: Reason, roots: set<Id>,
                 more: seq<Id>, recorded: seq<Event>)
    requires Edged(p) && Sweeping(p, gone, events, reason, roots) && root in p.items && root in roots
    requires CascadeOf(RemoveSeq(p, gone), root, more)
    requires root in RemoveSeq(p, gone).items ==>
      Accounts(RemoveSeq(p, gone).dependents, more, recorded) && RootEvents(recorded, reason, {root})
    requires more == [] ==> recorded == []
    ensures Sweeping(p, gone + more, events + recorded, reason, roots)
    ensures Elems(gone) + {root} <= Elems(gone + more)
  {
    ElemsConcat(gone, more);
    if root in RemoveSeq(p, gone).items {
      SweepLive(p, gone, events, root, reason, roots, more, recorded);
    } else {
      SweepNothing(p, gone, events, root, more, recorded);
    }
  }

  /** A root that is still there: its subtree goes, and is reported. */
  lemma SweepLive(p: Pool, gone: seq<Id>, events: seq<Event>, root: Id, reason: Reason, roots: set<Id>,
                  more: seq<Id>, recorded: seq<Event>)
    requires Edged(p) && Sweeping(p, gone, events, reason, roots) && root in RemoveSeq(p, gone).items && root in roots
    requires CascadeOf(RemoveSeq(p, gone), root, more)
    requires Accounts(RemoveSeq(p, gone).dependents, more, recorded) && RootEvents(recorded, reason, {root})
    ensures Sweeping(p, gone + more, events + recorded, reason, roots) && root in Elems(more)
  {
    ElemsConcat(gone, more);
    SubtreeWithin(p, gone, root, roots);
    PhaseAppend(p, gone, events, more, recorded);
    RootEventsConcat(events, recorded, reason, roots, root);
    assert roots + {root} == roots;
    assert root in Elems(more);
  }

  /** A root that an earlier cascade already swept away. */
  lemma SweepNothing(p: Pool, gone: seq<Id>, events: seq<Event>, root: Id, more: seq<Id>, recorded: seq<Event>)
    requires Edged(p) && root in p.items && root !in RemoveSeq(p, gone).items
    requires CascadeOf(RemoveSeq(p, gone), root, more)
    requires more == [] ==> recorded == []
    ensures gone + more == gone && events + recorded == events && root in Elems(gone)
  {
    RemoveSeqItems(p, gone);
    assert root in Elems(gone);
    NothingLeft(p, gone, root, more);
  }

  // ── Percentage eviction ──

  /** Evicts the lowest-scored subtrees until the target share of cost is gone. */
  method EvictLowestPercent(pool: ActivePool, percent: nat, height: U64, protection: U64)
    returns (events: seq<Event>, ghost gone: seq<Id>, ghost last: nat, ghost target: nat)
    requires Sound(pool.Model())
    modifies pool
    ensures pool.Model() == RemoveSeq(old(pool.Model()), gone)
    ensures Phase(old(pool.Model()), gone, events)
    ensures var wanted := old(pool.totalCost) * if percent > 100 then 100 else percent;
      target == if wanted > U64_MAX then U64_MAX / 100 else wanted / 100
    ensures
      || old(pool.totalCost) - pool.totalCost >= target
      || forall b :: b in pool.items ==> pool.items[b].ExpiryProtected(height, protection)
    ensures LowestFirst(old(pool.items), pool.items, events, height, protection)
    ensures NobodyShielded(old(pool.items), events, height, protection)
    ensures InTime(old(pool.Model()), gone, last, target)
  {
    ghost var p := pool.Model();
    events, gone, last, target := [], [], 0, 0;
    if percent == 0 { return; }
    var share := if percent > 100 then 100 else percent;
    var wanted := SatMul(pool.totalCost, share) / 100;
    target := wanted;
    if wanted == 0 { return; }
    var sorted := pool.ByScore(pool.items.Keys);
    ghost var k;
    events, gone, k, last := EvictUntil(pool, sorted, wanted, height, protection);
    StillProtected(p, gone, events, Elems(sorted[..k]), height, protection);
    EvictableOnly(p.items, events, Elems(sorted[..k]), height, protection);
    RemoveSeqKeys(p, gone);
    WholePrefix(sorted);
    PrefixIsLowest(p.items, pool.items, sorted, k, events, height, protection);
  }

  /** Nobody close to its height bound is evicted for itself. */
  ghost predicate NobodyShielded(before: map<Id, Item>, events: seq<Event>, height: U64, protection: U64) {
    forall e :: e in events && e.reason.CapacityEviction? && e.id in before ==>
      var bound := before[e.id].assertBeforeHeight;
      !(bound.Some? && height < bound.value <= height + protection)
  }

  /** The last cascade, everything from position `last` on, began while the target was still missed. */
  ghost predicate InTime(p: Pool, gone: seq<Id>, last: nat, target: nat) {
    gone == [] || (last < |gone| && LastCascade(p, gone[..last], gone[last..], target))
  }

  ghost predicate LastCascade(p: Pool, before: seq<Id>, more: seq<Id>, target: nat) {
    p.totalCost - RemoveSeq(p, before).totalCost < target && exists root :: CascadeOf(RemoveSeq(p, before), root, more)
  }

  lemma InTimeStep(p: Pool, before: seq<Id>, last: nat, gone: seq<Id>, target: nat, id: Id) returns (next: nat)
    requires InTime(p, before, last, target) && p.totalCost - RemoveSeq(p, before).totalCost < target
    requires gone != before ==> before < gone && CascadeOf(RemoveSeq(p, before), id, gone[|before|..])
    ensures InTime(p, gone, next, target)
  {
    next := last;
    if gone != before {
      next := |before|;
      assert gone[..|before|] == before;
    }
  }

  /** No directly evicted item scored above a shieldless survivor. */
  ghost predicate LowestFirst(before: map<Id, Item>, after: map<Id, Item>, events: seq<Event>, height: U64, protection: U64) {
    forall e, b :: e in events && e.reason.CapacityEviction? && b in after && b in before && e.id in before
                   && !after[b].ExpiryProtected(height, protection)
      ==> before[e.id].descendantScore <= before[b].descendantScore
  }

  lemma PrefixIsLowest(before: map<Id, Item>, after: map<Id, Item>, sorted: seq<Id>, k: nat, events: seq<Event>,
                       height: U64, protection: U64)
    requires k <= |sorted| && SortedBy(ScoreKeys(before), sorted) && Elems(sorted) == before.Keys
    requires RootEvents(events, CapacityEviction, Elems(sorted[..k]))
    requires forall b :: b in Elems(sorted[..k]) && b in after ==> after[b].ExpiryProtected(height, protection)
    ensures LowestFirst(before, after, events, height, protection)
  {
    PrefixHas(sorted, k);
    forall e, b | e in events && e.reason.CapacityEviction? && b in after && b in before && e.id in before
                  && !after[b].ExpiryProtected(height, protection)
      ensures before[e.id].descendantScore <= before[b].descendantScore
    {
      assert e.id in Elems(sorted[..k]) && b in Elems(sorted);
      var i :| 0 <= i < k && sorted[..k][i] == e.id;
      var j :| 0 <= j < |sorted| && sorted[j] == b;
      assert AtMost(ScoreKeys(before)[sorted[i]], ScoreKeys(before)[sorted[j]]);
    }
  }

  /** Those of `who` that are not close to their height bound. */
  ghost function Evictable(items: map<Id, Item>, who: set<Id>, height: U64, protection: U64): set<Id> {
    set b | b in who && b in items
      && !(items[b].assertBeforeHeight.Some? && height < items[b].assertBeforeHeight.value <= height + protection)
  }

  lemma EvictableOnly(items: map<Id, Item>, events: seq<Event>, who: set<Id>, height: U64, protection: U64)
    requires RootEvents(events, CapacityEviction, Evictable(items, who, height, protection))
    ensures RootEvents(events, CapacityEviction, who) && NobodyShielded(items, events, height, protection)
  {
  }

  /** Part-way through a percentage eviction: of the ids looked at, only expiry-protected ones are left. */
  ghost predicate Relieving(p: Pool, gone: seq<Id>, events: seq<Event>, done: set<Id>, height: U64, protection: U64) {
    && Phase(p, gone, events)
    && RootEvents(events, CapacityEviction, Evictable(p.items, done, height, protection))
    && forall b :: b in done && b in RemoveSeq(p, gone).items ==> b in p.items && p.items[b].ExpiryProtected(height, protection)
  }

  /** After `i` rounds of the loop below. */
  ghost predicate Rounds(p: Pool, q: Pool, sorted: seq<Id>, i: nat, costRemoved: nat, gone: seq<Id>, events: seq<Event>,
                         last: nat, target: nat, height: U64, protection: U64)
    requires i <= |sorted|
  {
    && q == RemoveSeq(p, gone) && costRemoved + q.totalCost == p.totalCost
    && Relieving(p, gone, events, Elems(sorted[..i]), height, protection)
    && InTime(p, gone, last, target)
  }

  lemma OneRound(p: Pool, before: Pool, q: Pool, sorted: seq<Id>, i: nat, costRemoved: U64, cost: U64, kept: seq<Id>, gone: seq<Id>,
                 kin: seq<Event>, events: seq<Event>, last: nat, target: nat, height: U64, protection: U64) returns (next: nat)
    requires i < |sorted| && Rounds(p, before, sorted, i, costRemoved, kept, kin, last, target, height, protection) && costRemoved < target
    requires q == RemoveSeq(p, gone) && Relieving(p, gone, events, Elems(sorted[..i]) + {sorted[i]}, height, protection)
    requires cost + q.totalCost == before.totalCost
    requires gone != kept ==> kept < gone && CascadeOf(RemoveSeq(p, kept), sorted[i], gone[|kept|..])
    ensures Rounds(p, q, sorted, i + 1, SatAdd(costRemoved, cost), gone, events, next, target, height, protection)
  {
    PrefixElems(sorted, i);
    next := InTimeStep(p, kept, last, gone, target, sorted[i]);
  }

  /** The loop: skip what is gone or shielded, cascade from everything else, count what it cost. */
  method EvictUntil(pool: ActivePool, sorted: seq<Id>, target: U64, height: U64, protection: U64)
    returns (events: seq<Event>, ghost gone: seq<Id>, ghost k: nat, ghost last: nat)
    requires Sound(pool.Model()) && Elems(sorted) == pool.items.Keys
    modifies pool
    ensures pool.Model() == RemoveSeq(old(pool.Model()), gone)
    ensures k <= |sorted| && (k < |sorted| ==> old(pool.totalCost) - pool.totalCost >= target)
    ensures Relieving(old(pool.Model()), gone, events, Elems(sorted[..k]), height, protection)
    ensures InTime(old(pool.Model()), gone, last, target)
  {
    ghost var p := pool.Model();
    events, gone, k, last := [], [], 0, 0;
    var costRemoved: U64 := 0;
    for i := 0 to |sorted|
      invariant k == i && Rounds(p, pool.Model(), sorted, i, costRemoved, gone, events, last, target, height, protection)
    {
      if costRemoved >= target { return; }
      ghost var q, kept, kin := pool.Model(), gone, events;
      var cost;
      cost, events, gone := EvictUnlessProtected(pool, p, gone, events, Elems(sorted[..i]), sorted[i], height, protection);
      last := OneRound(p, q, pool.Model(), sorted, i, costRemoved, cost, kept, gone, kin, events, last, target, height, protection);
      costRemoved := SatAdd(costRemoved, cost);
      k := i + 1;
    }
  }

  lemma SkippedToo(p: Pool, gone: seq<Id>, events: seq<Event>, done: set<Id>, id: Id, height: U64, protection: U64)
    requires Relieving(p, gone, events, done, height, protection)
    requires id in RemoveSeq(p, gone).items ==> id in p.items && p.items[id].ExpiryProtected(height, protection)
    ensures Relieving(p, gone, events, done + {id}, height, protection)
  {
    assert Evictable(p.items, done, height, protection) <= Evictable(p.items, done + {id}, height, protection);
  }

  /** One round of the loop. */
  method EvictUnlessProtected(pool: ActivePool, ghost p: Pool, ghost before: seq<Id>, soFar: seq<Event>, ghost done: set<Id>,
                              id: Id, height: U64, protection: U64)
    returns (cost: U64, events: seq<Event>, ghost gone: seq<Id>)
    requires Sound(p) && pool.Model() == RemoveSeq(p, before) && Relieving(p, before, soFar, done, height, protection)
    modifies pool
    ensures pool.Model() == RemoveSeq(p, gone) && Relieving(p, gone, events, done + {id}, height, protection)
    ensures cost + pool.totalCost == old(pool.totalCost)
    ensures gone != before ==> before < gone && CascadeOf(RemoveSeq(p, before), id, gone[|before|..])
  {
    cost, events, gone := 0, soFar, before;
    if id in pool.items {
      ProtectedSame(p, before, id, height, protection);
      if !pool.items[id].ExpiryProtected(height, protection) {
        var recorded;
        ghost var more;
        RemoveSeqSound(p, before);
        cost, recorded, more := EvictCounted(pool, p, before, soFar, id);
        RelieveOne(p, before, soFar, done, id, more, recorded, height, protection);
        events, gone := soFar + recorded, before + more;
        assert gone[|before|..] == more && gone[..|before|] == before;
        return;
      }
    }
    SkippedToo(p, before, soFar, done, id, height, protection);
  }

  lemma RelieveOne(p: Pool, gone: seq<Id>, events: seq<Event>, done: set<Id>, id: Id, more: seq<Id>, recorded: seq<Event>,
                   height: U64, protection: U64)
    requires Relieving(p, gone, events, done, height, protection) && Phase(p, gone + more, events + recorded)
    requires id in gone + more && RootEvents(recorded, CapacityEviction, {id})
    requires id in p.items && !p.items[id].ExpiryProtected(height, protection)
    ensures Relieving(p, gone + more, events + recorded, done + {id}, height, protection)
  {
    ProtectedMeans(p.items[id], height, protection);
    RootEventsConcat(events, recorded, CapacityEviction, Evictable(p.items, done, height, protection), id);
    assert Evictable(p.items, done + {id}, height, protection) == Evictable(p.items, done, height, protection) + {id};
    RemoveSeqKeys(p, gone);
    RemoveSeqKeys(p, gone + more);
    ElemsConcat(gone, more);
    assert id in Elems(gone + more);
  }

  lemma ProtectedSame(p: Pool, gone: seq<Id>, b: Id, height: U64, protection: U64)
    requires b in RemoveSeq(p, gone).items
    ensures b in p.items
    ensures RemoveSeq(p, gone).items[b].ExpiryProtected(height, protection) <==> p.items[b].ExpiryProtected(height, protection)
  {
    RemoveSeqItems(p, gone);
    assert RemoveSeq(p, gone).items[b].SameButScore((p.items - Elems(gone))[b]);
  }

  /** What is left of the ids looked at is still expiry-protected. */
  lemma StillProtected(p: Pool, gone: seq<Id>, events: seq<Event>, done: set<Id>, height: U64, protection: U64)
    requires Relieving(p, gone, events, done, height, protection)
    ensures forall b :: b in done && b in RemoveSeq(p, gone).items ==> RemoveSeq(p, gone).items[b].ExpiryProtected(height, protection)
  {
    forall b | b in done && b in RemoveSeq(p, gone).items
      ensures RemoveSeq(p, gone).items[b].ExpiryProtected(height, protection)
    {
      ProtectedSame(p, gone, b, height, protection);
    }
  }

  /** The cost of a subtree, worked out beforehand, is exactly what its eviction takes off the total. */
  method EvictCounted(pool: ActivePool, ghost p: Pool, ghost gone: seq<Id>, events: seq<Event>, root: Id)
    returns (cost: U64, recorded: seq<Event>, ghost more: seq<Id>)
    requires Sound(p) && Sound(pool.Model()) && pool.Model() == RemoveSeq(p, gone) && Phase(p, gone, events)
    requires root in pool.items
    modifies pool
    ensures pool.Model() == RemoveSeq(p, gone + more) && Phase(p, gone + more, events + recorded)
    ensures cost + pool.totalCost == old(pool.totalCost)
    ensures root in gone + more && RootEvents(recorded, CapacityEviction, {root})
    ensures CascadeOf(RemoveSeq(p, gone), root, more)
  {
    ghost var q := pool.Model();
    cost := SubtreeCost(q, pool.items, pool.dependents, root);
    var below;
    recorded, below, more := CascadeAndRecord(pool, root, CapacityEviction);
    RemoveSeqCost(q, more);
    RemoveSeqConcat(p, gone, more);
    PhaseAppend(p, gone, events, more, recorded);
  }

  // ── New blocks ──

  /** The active items that spend a coin the block spent, as far as the index knows. */
  ghost function Owners(p: Pool, spent: seq<CoinId>): set<Id> { set c | c in spent && c in p.coinIndex :: p.coinIndex[c] }

  ghost function Outdated(items: map<Id, Item>, height: U64, timestamp: U64): set<Id> {
    set b | b in items
      && (   (items[b].assertBeforeHeight.Some? && items[b].assertBeforeHeight.value <= height)
          || (items[b].assertBeforeSeconds.Some? && items[b].assertBeforeSeconds.value <= timestamp))
  }

  /** A reported id was confirmed or has expired for the stated reason, or fell with its parent. */
  ghost predicate Justified(p: Pool, spent: seq<CoinId>, height: U64, timestamp: U64, events: seq<Event>) {
    forall e :: e in events ==>
      match e.reason
      case Confirmed => e.id in Owners(p, spent)
      case Expired => e.id in Outdated(p.items, height, timestamp)
      case CascadeEvicted(_) => true
      case CapacityEviction => false
  }

  lemma OwnersActive(p: Pool, spent: seq<CoinId>)
    requires CoinsTrue(p)
    ensures Owners(p, spent) <= p.items.Keys
  {
    forall c | c in spent && c in p.coinIndex ensures p.coinIndex[c] in p.items {
      assert p.coinIndex[c] in Removals(p.items);
    }
  }

  lemma OutdatedAfter(p: Pool, gone: seq<Id>, height: U64, timestamp: U64)
    ensures Outdated(RemoveSeq(p, gone).items, height, timestamp) == Outdated(p.items, height, timestamp) - Elems(gone)
  {
    var r := RemoveSeq(p, gone);
    RemoveSeqItems(p, gone);
    forall b | b in r.items
      ensures r.items[b].assertBeforeHeight == p.items[b].assertBeforeHeight
      ensures r.items[b].assertBeforeSeconds == p.items[b].assertBeforeSeconds
    {
      assert r.items[b].SameButScore((p.items - Elems(gone))[b]);
    }
  }

  lemma TwoReasons(p: Pool, spent: seq<CoinId>, height: U64, timestamp: U64, a: seq<Event>, b: seq<Event>, stale: set<Id>)
    requires RootEvents(a, Confirmed, Owners(p, spent)) && RootEvents(b, Expired, stale)
    requires stale <= Outdated(p.items, height, timestamp)
    ensures Justified(p, spent, height, timestamp, a + b)
  {
    assert forall e :: e in a + b <==> e in a || e in b;
  }

  /** Both phases together remove the subtrees of everything confirmed or expired. */
  lemma TwoPhases(p: Pool, first: seq<Id>, second: seq<Id>, roots: set<Id>, stale: set<Id>)
    requires Edged(p) && ChildrenFirst(p.dependents, first + second)
    requires Elems(first) == Reach(p.dependents, {}, roots)
    requires Elems(second) == Reach(RemoveSeq(p, first).dependents, {}, stale - Elems(first))
    ensures Elems(first + second) == Reach(p.dependents, {}, roots + stale)
  {
    var q := RemoveSeq(p, first);
    ElemsConcat(first, second);
    ReachCovers(p.dependents, {}, roots + stale);
    ReachCovers(p.dependents, {}, roots);
    ReachCovers(q.dependents, {}, stale - Elems(first));
    ReachLeast(p.dependents, {}, roots, Reach(p.dependents, {}, roots + stale));
    forall x ensures Succ(q.dependents, x) <= Succ(p.dependents, x) { RemoveSeqChildren(p, first, x); }
    ReachMono(q.dependents, p.dependents, {}, stale - Elems(first), roots + stale);
    SweptIsSubtrees(p, first + second, roots + stale);
  }

  /** `gone`, reported by `events`, is exactly the subtrees of what the block confirmed or let expire. */
  ghost predicate Settles(p: Pool, height: U64, timestamp: U64, spent: seq<CoinId>, gone: seq<Id>, events: seq<Event>) {
    && Phase(p, gone, events)
    && Elems(gone) == Reach(p.dependents, {}, Owners(p, spent) + Outdated(p.items, height, timestamp))
    && Justified(p, spent, height, timestamp, events)
  }

  /** First everything confirmed, with what depends on it; then everything of the rest that has reached a bound. */
  ghost predicate OneAfterTheOther(p: Pool, height: U64, timestamp: U64, spent: seq<CoinId>,
                                   first: seq<Id>, a: seq<Event>, second: seq<Id>, b: seq<Event>) {
    var q := RemoveSeq(p, first);
    && Phase(p, first, a) && RootEvents(a, Confirmed, Owners(p, spent)) && Elems(first) == Reach(p.dependents, {}, Owners(p, spent))
    && Phase(q, second, b) && RootEvents(b, Expired, Outdated(q.items, height, timestamp))
    && Elems(second) == Reach(q.dependents, {}, Outdated(q.items, height, timestamp))
  }

  ghost predicate InTurn(p: Pool, height: U64, timestamp: U64, spent: seq<CoinId>, gone: seq<Id>, events: seq<Event>) {
    exists first, a, second, b :: OneAfterTheOther(p, height, timestamp, spent, first, a, second, b)
      && gone == first + second && events == a + b
  }

  /** The active pool's part of a new block: first what the block confirmed, then what has expired. */
  method SettleBlock(pool: ActivePool, height: U64, timestamp: U64, spent: seq<CoinId>)
    returns (events: seq<Event>, cascaded: seq<Id>, ghost gone: seq<Id>)
    requires Sound(pool.Model())
    modifies pool
    ensures pool.Model() == RemoveSeq(old(pool.Model()), gone)
    ensures Settles(old(pool.Model()), height, timestamp, spent, gone, events) && cascaded == Below(events)
    ensures InTurn(old(pool.Model()), height, timestamp, spent, gone, events)
  {
    ghost var p := pool.Model();
    var confirmed := Rbf.FindConflicts(pool.coinIndex, spent, {});
    Rbf.ConflictIdsFacts(pool.coinIndex, spent, {});
    assert Elems(confirmed) == Owners(p, spent);
    OwnersActive(p, spent);
    ghost var first;
    events, cascaded, first := EvictRoots(pool, confirmed, Confirmed);
    RemoveSeqSound(p, first);
    OutdatedAfter(p, first, height, timestamp);
    var later, below;
    ghost var second;
    later, below, second := EvictExpired(pool, height, timestamp);
    PhaseAppend(p, first, events, second, later);
    TwoPhases(p, first, second, Owners(p, spent), Outdated(p.items, height, timestamp));
    TwoReasons(p, spent, height, timestamp, events, later, Outdated(p.items, height, timestamp) - Elems(first));
    BelowConcat(events, later);
    assert OneAfterTheOther(p, height, timestamp, spent, first, events, second, later);
    events, cascaded, gone := events + later, cascaded + below, first + second;
    RemoveSeqConcat(p, first, second);
  }

  method EvictExpired(pool: ActivePool, height: U64, timestamp: U64)
    returns (events: seq<Event>, cascaded: seq<Id>, ghost gone: seq<Id>)
    requires Sound(pool.Model())
    modifies pool
    ensures pool.Model() == RemoveSeq(old(pool.Model()), gone)
    ensures Phase(old(pool.Model()), gone, events) && cascaded == Below(events)
    ensures RootEvents(events, Expired, Outdated(old(pool.items), height, timestamp))
    ensures Elems(gone) == Reach(old(pool.dependents), {}, Outdated(old(pool.items), height, timestamp))
  {
    var stale := set b | b in pool.items && pool.items[b].Expired(height, timestamp);
    forall b | b in pool.items ensures b in stale <==> b in Outdated(pool.items, height, timestamp) {
      ExpiredMeans(pool.items[b], height, timestamp);
    }
    assert stale == Outdated(pool.items, height, timestamp);
    var expired := Enumerate(stale);
    events, cascaded, gone := EvictRoots(pool, expired, Expired);
  }

  /** After the block nothing active has expired and, with complete indexes, nothing spends a spent coin. */
  lemma BlockSettled(p: Pool, spent: seq<CoinId>, height: U64, timestamp: U64, gone: seq<Id>)
    requires Owners(p, spent) + Outdated(p.items, height, timestamp) <= Elems(gone)
    ensures var r := RemoveSeq(p, gone).items;
      && (forall b :: b in r && r[b].assertBeforeHeight.Some? ==> height < r[b].assertBeforeHeight.value)
      && (forall b :: b in r && r[b].assertBeforeSeconds.Some? ==> timestamp < r[b].assertBeforeSeconds.value)
      && (CoinsFull(p) ==> forall b, c :: b in r && c in r[b].removals ==> c !in spent)
  {
    var r := RemoveSeq(p, gone).items;
    OutdatedAfter(p, gone, height, timestamp);
    RemoveSeqItems(p, gone);
    forall b | b in r
      ensures r[b].assertBeforeHeight.Some? ==> height < r[b].assertBeforeHeight.value
      ensures r[b].assertBeforeSeconds.Some? ==> timestamp < r[b].assertBeforeSeconds.value
    {
      assert b !in Outdated(r, height, timestamp);
    }
    if CoinsFull(p) {
      forall b, c | b in r && c in r[b].removals ensures c !in spent {
        AlikeFields(r, p.items - Elems(gone), b);
        assert c in Removals(p.items)[b] && p.coinIndex[c] == b;
        assert b !in Owners(p, spent);
      }
    }
  }

  /** `on_new_block`: forget seen bundles, settle the active pool, hand back the pending bundles now due. */
  method OnNewBlock(pool: ActivePool, pending: PendingPools.PendingPool, seen: SeenCaches.SeenCache,
                    height: U64, timestamp: U64, spent: seq<CoinId>)
    returns (promotions: seq<Item>, cascaded: seq<Id>, events: seq<Event>, ghost gone: seq<Id>)
    requires Sound(pool.Model()) && seen.Valid()
    modifies pool, pending, seen
    ensures pool.Model() == RemoveSeq(old(pool.Model()), gone)
    ensures Settles(old(pool.Model()), height, timestamp, spent, gone, events) && cascaded == Below(events)
    ensures InTurn(old(pool.Model()), height, timestamp, spent, gone, events)
    ensures forall b :: b in pool.items && pool.items[b].assertBeforeHeight.Some? ==> height < pool.items[b].assertBeforeHeight.value
    ensures forall b :: b in pool.items && pool.items[b].assertBeforeSeconds.Some? ==> timestamp < pool.items[b].assertBeforeSeconds.value
    ensures CoinsFull(old(pool.Model())) ==>
      forall b, c :: b in pool.items && c in pool.items[b].removals ==> c !in spent
    ensures PendingPools.Drained(old(pending.Model()), height, timestamp, pending.Model())
    ensures forall x :: x in promotions <==>
      exists b :: b in old(pending.pending) && old(pending.pending)[b] == x && PendingPools.Ready(x, height, timestamp)
    ensures seen.Valid() && seen.accepted == []
  {
    seen.Clear();
    ghost var p := pool.Model();
    events, cascaded, gone := SettleBlock(pool, height, timestamp, spent);
    ReachCovers(p.dependents, {}, Owners(p, spent) + Outdated(p.items, height, timestamp));
    BlockSettled(p, spent, height, timestamp, gone);
    promotions := pending.Drain(height, timestamp);
  }

  // ── What every phase of cascades keeps ──

  /** The reported ids are exactly the items that disappeared. */
  lemma PhaseConserves(p: Pool, gone: seq<Id>, events: seq<Event>)
    requires Phase(p, gone, events)
    ensures (set e | e in events :: e.id) == p.items.Keys - RemoveSeq(p, gone).items.Keys
  {
    RemoveSeqKeys(p, gone);
    EventIdsAre(gone, events);
  }

  // ── Who is reported for itself ──

  lemma BelowSomeRoot(g: Edges, roots: set<Id>, x: Id)
    requires x in Reach(g, {}, roots)
    ensures x in roots || exists r :: r in roots && x in Reach(g, {}, Succ(g, r))
  {
    var all := Reach(g, {}, roots);
    var t := set y | y in all && (y in roots || exists r :: r in roots && y in Reach(g, {}, Succ(g, r)));
    ReachCovers(g, {}, roots);
    forall y, z | y in t && z in Succ(g, y) ensures z in t {
      if y in roots {
        ReachCovers(g, {}, Succ(g, y));
      } else {
        var r :| r in roots && y in Reach(g, {}, Succ(g, r));
        ReachCovers(g, {}, Succ(g, r));
      }
    }
    ReachLeast(g, {}, roots, t);
  }

  /** A root that is below no other root is reported with the reason of the phase. */
  lemma ReportedForItself(q: Pool, gone: seq<Id>, events: seq<Event>, reason: Reason, roots: set<Id>, x: Id)
    requires Phase(q, gone, events) && RootEvents(events, reason, roots) && Elems(gone) == Reach(q.dependents, {}, roots)
    requires x in roots && forall r :: r in roots ==> x !in Reach(q.dependents, {}, Succ(q.dependents, r))
    ensures Event(x, reason) in events
  {
    ReachCovers(q.dependents, {}, roots);
    EventIdsAre(gone, events);
    assert x in Elems(gone);
    var e :| e in events && e.id == x;
    if e.reason.CascadeEvicted? {
      var parent := e.reason.parent;
      assert parent in Elems(gone);
      BelowSomeRoot(q.dependents, roots, parent);
      var r := if parent in roots then parent else var s :| s in roots && parent in Reach(q.dependents, {}, Succ(q.dependents, s)); s;
      ReachCovers(q.dependents, {}, Succ(q.dependents, r));
    }
  }

  /**
   * An active item that has reached one of its upper bounds is reported as expired, if no block coin is spent by it
   * or above it and nothing above it has expired.
   */
  lemma ExpiredIsReported(p: Pool, height: U64, timestamp: U64, spent: seq<CoinId>, gone: seq<Id>, events: seq<Event>, x: Id)
    requires Edged(p) && InTurn(p, height, timestamp, spent, gone, events) && x in p.items
    requires || (p.items[x].assertBeforeHeight.Some? && p.items[x].assertBeforeHeight.value <= height)
             || (p.items[x].assertBeforeSeconds.Some? && p.items[x].assertBeforeSeconds.value <= timestamp)
    requires x !in Reach(p.dependents, {}, Owners(p, spent))
    requires forall r :: r in Outdated(p.items, height, timestamp) ==> x !in Reach(p.dependents, {}, Succ(p.dependents, r))
    ensures Event(x, Expired) in events
  {
    var first, a, second, b :| OneAfterTheOther(p, height, timestamp, spent, first, a, second, b)
      && gone == first + second && events == a + b;
    var q := RemoveSeq(p, first);
    OutdatedAfter(p, first, height, timestamp);
    forall r | r in Outdated(q.items, height, timestamp) ensures x !in Reach(q.dependents, {}, Succ(q.dependents, r)) {
      forall y ensures Succ(q.dependents, y) <= Succ(p.dependents, y) { RemoveSeqChildren(p, first, y); }
      ReachMono(q.dependents, p.dependents, {}, Succ(q.dependents, r), Succ(p.dependents, r));
    }
    ReportedForItself(q, second, b, Expired, Outdated(q.items, height, timestamp), x);
  }

  /** Who spends a coin of the block, and nobody above it does, is reported as confirmed. */
  lemma ConfirmedIsReported(p: Pool, height: U64, timestamp: U64, spent: seq<CoinId>, gone: seq<Id>, events: seq<Event>, c: CoinId)
    requires InTurn(p, height, timestamp, spent, gone, events) && c in spent && c in p.coinIndex
    requires forall o :: o in spent && o in p.coinIndex ==>
      p.coinIndex[c] !in Reach(p.dependents, {}, Succ(p.dependents, p.coinIndex[o]))
    ensures Event(p.coinIndex[c], Confirmed) in events
  {
    var first, a, second, b :| OneAfterTheOther(p, height, timestamp, spent, first, a, second, b)
      && gone == first + second && events == a + b;
    ReportedForItself(p, first, a, Confirmed, Owners(p, spent), p.coinIndex[c]);
  }

  /** Whoever is reported as expired has reached a bound, and can be mined at no later height and time. */
  lemma ExpiredForGood(p: Pool, height: U64, timestamp: U64, spent: seq<CoinId>, gone: seq<Id>, events: seq<Event>, e: Event)
    requires Settles(p, height, timestamp, spent, gone, events) && e in events && e.reason.Expired?
    ensures e.id in p.items
    ensures || (p.items[e.id].assertBeforeHeight.Some? && p.items[e.id].assertBeforeHeight.value <= height)
            || (p.items[e.id].assertBeforeSeconds.Some? && p.items[e.id].assertBeforeSeconds.value <= timestamp)
    ensures forall h: U64, t: U64 :: h >= height && t >= timestamp ==> !Timelocks.OpenAt(Timelocks.Window(
      p.items[e.id].assertHeight, p.items[e.id].assertSeconds, p.items[e.id].assertBeforeHeight, p.items[e.id].assertBeforeSeconds), h, t)
  {
  }

  /** No phase orphans a survivor. */
  lemma PhaseNoOrphans(p: Pool, gone: seq<Id>, events: seq<Event>)
    requires Edged(p) && Phase(p, gone, events) && NoOrphans(p.items) && EdgesFull(p)
    ensures NoOrphans(RemoveSeq(p, gone).items) && EdgesFull(RemoveSeq(p, gone))
  {
    ClosedNoOrphans(p, gone);
  }

  /** As many different events as evicted ids, all among them: every evicted id is reported. */
  lemma EventIdsAre(gone: seq<Id>, events: seq<Event>)
    requires NoDup(gone) && |events| == |gone|
    requires forall i :: 0 <= i < |events| ==> events[i].id in gone
    requires forall i, j :: 0 <= i < j < |events| ==> events[i].id != events[j].id
    ensures (set e | e in events :: e.id) == Elems(gone)
  {
    var ids: seq<Id> := seq(|events|, i requires 0 <= i < |events| => events[i].id);
    SeenCaches.NoDupCardinality(ids);
    SeenCaches.NoDupCardinality(gone);
    forall x | x in Elems(ids) ensures x in Elems(gone) {
      var i :| 0 <= i < |ids| && ids[i] == x;
    }
    assert |Elems(ids)| == |ids| == |gone| == |Elems(gone)|;
    SubsetSameSize(Elems(ids), Elems(gone));
    forall x | x in Elems(ids) ensures x in (set e | e in events :: e.id) {
      var i :| 0 <= i < |ids| && ids[i] == x;
      assert events[i] in events;
    }
  }

  lemma SubsetSameSize(a: set<Id>, b: set<Id>)
    requires a <= b && |a| == |b|
    ensures a == b
  {
    assert b == a + (b - a);
  }
}
