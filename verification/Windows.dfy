/**
 * From the locks of a bundle to the blocks it may enter: what a submission stores is what validation yielded, each
 * field in its place, so an item is selectable exactly while every lock of its bundle holds
 * (src/mempool/submit.rs:288-345, 470-493, 857-891, src/selection/strategies.rs:34-56).
 */
module Windows {
  import opened Prelude
  import opened Items
  import opened PoolState
  import opened PoolInvariants
  import opened Timelocks
  import opened Rbf
  import opened Admission
  import opened Admitted
  import opened PendingPools
  import opened Submissions
  import opened BlockSelection

  /** The item an admission adds, field by field, as built from the pool before it. */
  lemma AdmittedFields(p: Pool, c: Candidate, v: Chainview, cfg: Config, d: Displaced, r: Pool)
    requires CoinsTrue(p) && Commits(p, c, v, cfg, d, r, None) && c.id !in p.items
    ensures c.id in r.items
    ensures var i := r.items[c.id];
      && i.id == c.id && i.fee == c.fee && i.cost == c.cost && i.virtualCost == c.Cost() && i.numSpends == c.numSpends
      && i.removals == c.removals && i.additions == c.additions && i.launcher == c.launcher && i.dedupKeys == c.dedupKeys
      && i.heightAdded == v.height && i.dependsOn == ParentsOf(p, c, v)
      && i.assertHeight == c.window.assertHeight && i.assertSeconds == c.window.assertSeconds
      && i.assertBeforeHeight == c.window.beforeHeight && i.assertBeforeSeconds == c.window.beforeSeconds
      && i.fpc == FpcScaled(i.fee, i.virtualCost) && i.packageFpc == FpcScaled(i.packageFee, i.packageVirtualCost)
  {
    var q, item := RemoveSeq(p, Gone(d)), Built(p, RemoveSeq(p, d.replaced), c, v);
    BuiltFields(p, RemoveSeq(p, d.replaced), c, v);
    BuiltTimes(p, RemoveSeq(p, d.replaced), c, v);
    BuiltRest(p, RemoveSeq(p, d.replaced), c, v);
    AdmitItems(q, item);
    AlikeFields(r.items, q.items[item.id := item], c.id);
    AlikeRest(r.items, q.items[item.id := item], c.id);
  }

  /** The whole of what an admitted submission stores, against what validation yielded. */
  lemma AdmittedIs(p: Pool, q: Pending, known: bool, id: Id, validation: Result<Validated, MempoolError>, s: Setting,
                   d: Displaced, p': Pool, q': Pending, outcome: Outcome)
    requires CoinsTrue(p) && PendingSound(q) && Outcomes(p, q, known, id, validation, s, d, p', q', outcome) && outcome.Admitted?
    ensures validation.Ok? && id !in p.items && id in p'.items
    ensures var i, b, w := p'.items[id], validation.value, WindowFor(validation.value, s);
      && i.id == id && i.fee == b.fee && i.cost == b.cost && i.numSpends == b.numSpends && i.virtualCost == VirtualCost(b.cost, b.numSpends)
      && i.removals == b.removals && i.additions == b.additions && i.launcher == b.launcher && i.dedupKeys == b.dedupKeys
      && i.heightAdded == s.height
      && i.assertHeight == w.assertHeight && i.assertSeconds == w.assertSeconds
      && i.assertBeforeHeight == w.beforeHeight && i.assertBeforeSeconds == w.beforeSeconds
      && i.fpc == FpcScaled(i.fee, i.virtualCost) && i.packageFpc == FpcScaled(i.packageFee, i.packageVirtualCost)
  {
    var b, w := validation.value, WindowFor(validation.value, s);
    CandidateMeans(id, b, w, s);
    AdmittedFields(p, CandidateFor(id, b, w), ViewOf(s), s.active, d, p');
  }

  /** The same of one that waits. */
  lemma WaitingIs(p: Pool, q: Pending, known: bool, id: Id, validation: Result<Validated, MempoolError>, s: Setting,
                  d: Displaced, p': Pool, q': Pending, outcome: Outcome)
    requires CoinsTrue(p) && PendingSound(q) && Outcomes(p, q, known, id, validation, s, d, p', q', outcome) && outcome.Waiting?
    ensures validation.Ok? && id !in q.items && id in q'.items
    ensures var i, b, w := q'.items[id], validation.value, WindowFor(validation.value, s);
      && i == PendingItem(id, b, w, s.height)
      && i.assertHeight == w.assertHeight && i.assertSeconds == w.assertSeconds
      && i.assertBeforeHeight == w.beforeHeight && i.assertBeforeSeconds == w.beforeSeconds
      && outcome.height == if w.assertHeight.Some? then w.assertHeight.value else 0
  {
    var b, w := validation.value, WindowFor(validation.value, s);
    SubmittedMeans(q, PendingItem(id, b, w, s.height), s.pending);
    PendingItemMeans(id, b, w, s.height);
  }

  // ── End to end ──

  lemma SelectableIffLocks(item: Item, c: Conditions, s: Setting, w: Window, h: U64, t: U64)
    requires LocksInRange(c, s.records, s.height, s.timestamp) && w == Folded(c, s.records, s.height, s.timestamp, |c.spends|)
    requires item.assertHeight == w.assertHeight && item.assertSeconds == w.assertSeconds
    requires item.assertBeforeHeight == w.beforeHeight && item.assertBeforeSeconds == w.beforeSeconds
    ensures IsSelectable(item, h, t) <==> LocksHold(c, s.records, s.height, s.timestamp, h, t)
  {
    SelectableMeans(item, h, t);
    ResolvedMeans(c, s.records, s.height, s.timestamp, w, h, t);
  }

  /** Barring overflow, an admitted bundle may enter a block at (h, t) if and only if all its locks hold there. */
  lemma AdmittedSelectableIff(p: Pool, q: Pending, known: bool, id: Id, validation: Result<Validated, MempoolError>, s: Setting,
                              d: Displaced, p': Pool, q': Pending, outcome: Outcome, h: U64, t: U64)
    requires CoinsTrue(p) && PendingSound(q) && Outcomes(p, q, known, id, validation, s, d, p', q', outcome) && outcome.Admitted?
    requires validation.Ok? ==> LocksInRange(validation.value.conditions, s.records, s.height, s.timestamp)
    ensures validation.Ok? && id in p'.items
    ensures IsSelectable(p'.items[id], h, t) <==> LocksHold(validation.value.conditions, s.records, s.height, s.timestamp, h, t)
    ensures LocksHold(validation.value.conditions, s.records, s.height, s.timestamp, s.height, s.timestamp)
  {
    var b, w := validation.value, WindowFor(validation.value, s);
    AdmittedIs(p, q, known, id, validation, s, d, p', q', outcome);
    SelectableIffLocks(p'.items[id], b.conditions, s, w, h, t);
    ScreenedMeans(b, s);
    ResolvedMeans(b.conditions, s.records, s.height, s.timestamp, w, s.height, s.timestamp);
  }

  /** A bundle that waits could enter a block at (h, t), once active, under the same condition; it does not hold yet. */
  lemma WaitingSelectableIff(p: Pool, q: Pending, known: bool, id: Id, validation: Result<Validated, MempoolError>, s: Setting,
                             d: Displaced, p': Pool, q': Pending, outcome: Outcome, h: U64, t: U64)
    requires CoinsTrue(p) && PendingSound(q) && Outcomes(p, q, known, id, validation, s, d, p', q', outcome) && outcome.Waiting?
    requires validation.Ok? ==> LocksInRange(validation.value.conditions, s.records, s.height, s.timestamp)
    ensures validation.Ok? && id in q'.items
    ensures IsSelectable(q'.items[id], h, t) <==> LocksHold(validation.value.conditions, s.records, s.height, s.timestamp, h, t)
    ensures !LocksHold(validation.value.conditions, s.records, s.height, s.timestamp, s.height, s.timestamp)
  {
    var b, w := validation.value, WindowFor(validation.value, s);
    WaitingIs(p, q, known, id, validation, s, d, p', q', outcome);
    SelectableIffLocks(q'.items[id], b.conditions, s, w, h, t);
    ScreenedMeans(b, s);
    ResolvedMeans(b.conditions, s.records, s.height, s.timestamp, w, s.height, s.timestamp);
  }
}
