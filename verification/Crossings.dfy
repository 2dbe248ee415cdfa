/**
 * Each pool looks only at itself when it lets an item in (src/mempool/submit.rs:499-503, 594-596): exactly when a
 * move makes an id active and pending at once.
 */
module Crossings {
  import opened Prelude
  import opened Items
  import opened PoolState
  import opened PoolInvariants
  import opened Rbf
  import opened Admission
  import opened Admitted
  import opened Sparing
  import opened PendingPools
  import opened Persistence
  import opened Submissions
  import opened Worlds
  import Runs

  ghost predicate PoolsApart(w: World) { w.pool.items.Keys !! w.pending.items.Keys }

  /** Active already, the bundle is routed to the pending pool, which has no objection and finds room. */
  ghost predicate CrossesToPending(p: Pool, q: Pending, id: Id, b: Validated, s: Setting)
    requires PendingSound(q)
  {
    var item := PendingItem(id, b, WindowFor(b, s), s.height);
    && Screened(b, s).Pending? && id in p.items
    && PendingPools.Objection(q, item, s.pending).None? && !NoRoom(PendingPools.Cleared(q, item), item, s.pending)
  }

  /** Pending already, the bundle is routed to the active pool, passes its checks and gets in. */
  ghost predicate CrossesToActive(p: Pool, q: Pending, id: Id, b: Validated, s: Setting)
    requires CoinsTrue(p)
  {
    var c := CandidateFor(id, b, WindowFor(b, s));
    && Screened(b, s).Active? && id in q.items
    && Refusal(p, c, ViewOf(s), s.active).None? && Enters(p, c, ViewOf(s), s.active)
  }

  ghost predicate BundleCrosses(p: Pool, q: Pending, id: Id, validation: Result<Validated, MempoolError>, s: Setting)
    requires CoinsTrue(p) && PendingSound(q)
  {
    validation.Ok? && (CrossesToPending(p, q, id, validation.value, s) || CrossesToActive(p, q, id, validation.value, s))
  }

  /** Known before the move: it takes an id into one pool that is in the other. */
  ghost predicate Crosses(w: World, m: Move) {
    match m
    case Conclusion(id, validation, s, _, _) =>
      CoinsTrue(w.pool) && PendingSound(w.pending) && BundleCrosses(w.pool, w.pending, id, validation, s)
    case Return(saved, _) => !(saved.items.Keys !! w.pending.items.Keys)
    case PendingReturn(kept, _) => !(kept.items.Keys !! w.pool.items.Keys)
    case _ => false
  }

  // ── One conclusion ──

  /** The newcomer waits afterwards exactly if nobody objects and there is room. */
  lemma WaitsIff(q: Pending, item: Item, limits: Limits)
    requires PendingSound(q) && item.id !in q.items
    ensures item.id in Submitted(q, item, limits).0.items
       <==> PendingPools.Objection(q, item, limits).None? && !NoRoom(PendingPools.Cleared(q, item), item, limits)
  {
    ClearedFree(q, item);
  }

  /** The newcomer is active afterwards exactly if it passes the checks and gets in, whatever the hash maps do. */
  lemma ActiveIff(p: Pool, c: Candidate, v: Chainview, cfg: Config, d: Displaced, r: Pool, answer: Option<MempoolError>)
    requires Sound(p) && cfg.maxTotalCost < U64_MAX && c.id !in p.items && Commits(p, c, v, cfg, d, r, answer)
    ensures c.id in r.items <==> Refusal(p, c, v, cfg).None? && Enters(p, c, v, cfg)
  {
    if Refusal(p, c, v, cfg).None? {
      EntersIff(p, c, v, cfg, d, answer != Some(MempoolFull));
      RemoveSeqKeys(p, Gone(d));
      BuiltFields(p, RemoveSeq(p, d.replaced), c, v);
      AdmitItems(RemoveSeq(p, Gone(d)), Built(p, RemoveSeq(p, d.replaced), c, v));
    }
  }

  lemma PendingCrosses(p: Pool, q: Pending, id: Id, b: Validated, s: Setting, q': Pending)
    requires PendingSound(q) && p.items.Keys !! q.items.Keys && Screened(b, s).Pending?
    requires q' == Submitted(q, PendingItem(id, b, WindowFor(b, s), s.height), s.pending).0
    ensures p.items.Keys !! q'.items.Keys <==> !CrossesToPending(p, q, id, b, s)
  {
    var item := PendingItem(id, b, WindowFor(b, s), s.height);
    SubmittedIds(q, item, s.pending);
    if id in p.items { WaitsIff(q, item, s.pending); }
  }

  lemma ActiveCrosses(p: Pool, q: Pending, id: Id, b: Validated, s: Setting, d: Displaced, p': Pool, answer: Option<MempoolError>)
    requires Sound(p) && s.active.maxTotalCost < U64_MAX && p.items.Keys !! q.items.Keys && Screened(b, s).Active?
    requires Commits(p, CandidateFor(id, b, WindowFor(b, s)), ViewOf(s), s.active, d, p', answer)
    ensures p'.items.Keys !! q.items.Keys <==> !CrossesToActive(p, q, id, b, s)
  {
    var c := CandidateFor(id, b, WindowFor(b, s));
    CommitIds(p, c, ViewOf(s), s.active, d, p', answer);
    if id in q.items { ActiveIff(p, c, ViewOf(s), s.active, d, p', answer); }
  }

  lemma RoutedToPending(p: Pool, q: Pending, id: Id, b: Validated, s: Setting, d: Displaced, p': Pool, q': Pending, outcome: Outcome)
    requires CoinsTrue(p) && PendingSound(q) && p.items.Keys !! q.items.Keys && Screened(b, s).Pending?
    requires Concluded(p, q, id, Ok(b), s, d, p', q', outcome)
    ensures p'.items.Keys !! q'.items.Keys <==> !CrossesToPending(p, q, id, b, s)
  {
    PendingCrosses(p, q, id, b, s, q');
  }

  lemma RoutedToActive(p: Pool, q: Pending, id: Id, b: Validated, s: Setting, d: Displaced, p': Pool, q': Pending, outcome: Outcome)
    requires Sound(p) && PendingSound(q) && s.active.maxTotalCost < U64_MAX && p.items.Keys !! q.items.Keys && Screened(b, s).Active?
    requires Concluded(p, q, id, Ok(b), s, d, p', q', outcome)
    ensures p'.items.Keys !! q'.items.Keys <==> !CrossesToActive(p, q, id, b, s)
  {
    ActiveCrosses(p, q, id, b, s, d, p', if outcome.Admitted? then None else Some(outcome.error));
  }

  lemma TurnedAway(p: Pool, q: Pending, id: Id, validation: Result<Validated, MempoolError>, s: Setting,
                   d: Displaced, p': Pool, q': Pending, outcome: Outcome)
    requires CoinsTrue(p) && PendingSound(q) && Concluded(p, q, id, validation, s, d, p', q', outcome)
    requires validation.Ok? ==> Screened(validation.value, s).Rejected?
    ensures p' == p && q' == q && !BundleCrosses(p, q, id, validation, s)
  {
  }

  lemma ConcludedCrosses(p: Pool, q: Pending, id: Id, validation: Result<Validated, MempoolError>, s: Setting,
                         d: Displaced, p': Pool, q': Pending, outcome: Outcome)
    requires Sound(p) && PendingSound(q) && s.active.maxTotalCost < U64_MAX && p.items.Keys !! q.items.Keys
    requires Concluded(p, q, id, validation, s, d, p', q', outcome)
    ensures p'.items.Keys !! q'.items.Keys <==> !BundleCrosses(p, q, id, validation, s)
  {
    if validation.Ok? && Screened(validation.value, s).Pending? {
      RoutedToPending(p, q, id, validation.value, s, d, p', q', outcome);
    } else if validation.Ok? && Screened(validation.value, s).Active? {
      RoutedToActive(p, q, id, validation.value, s, d, p', q', outcome);
    } else {
      TurnedAway(p, q, id, validation, s, d, p', q', outcome);
    }
  }

  lemma ConclusionCrosses(w: World, b: Bounds, m: Move, r: World)
    requires BothSafe(w, b) && Detectable(b.active) && PoolsApart(w) && m.Conclusion? && Worlds.Concludes(w, b, m, r)
    ensures PoolsApart(r) <==> !Crosses(w, m)
  {
    ConcludedCrosses(w.pool, w.pending, m.id, m.validation, m.s, m.d, r.pool, r.pending, m.outcome);
  }

  // ── Any move ──

  lemma ReturnCrosses(w: World, b: Bounds, m: Move, r: World)
    requires PoolsApart(w) && (m.Return? || m.PendingReturn?) && Next(w, b, m, r)
    ensures PoolsApart(r) <==> !Crosses(w, m)
  {
    match m
    case Return(_, xs) => InsertAllKeys(w.pool, xs);
    case PendingReturn(_, xs) => PendingKeys(w.pending, xs);
  }

  lemma OthersApart(w: World, b: Bounds, m: Move, r: World)
    requires PoolsApart(w) && !m.Conclusion? && !m.Return? && !m.PendingReturn? && Next(w, b, m, r)
    ensures PoolsApart(r)
  {
    match m
    case Settlement(_, _, _, gone, _) => RemoveSeqKeys(w.pool, gone);
    case Shedding(gone, _) => RemoveSeqKeys(w.pool, gone);
    case Withdrawal(id) => Runs.RemoveIsSeq(w.pool, id); RemoveSeqKeys(w.pool, [id]);
    case Maturing(height, timestamp) => DrainedIds(w.pending, height, timestamp, r.pending);
    case _ =>
  }

  lemma MoveCrosses(w: World, b: Bounds, m: Move, r: World)
    requires BothSafe(w, b) && Detectable(b.active) && PoolsApart(w) && Next(w, b, m, r)
    ensures PoolsApart(r) <==> !Crosses(w, m)
  {
    if m.Conclusion? {
      ConclusionCrosses(w, b, m, r);
    } else if m.Return? || m.PendingReturn? {
      ReturnCrosses(w, b, m, r);
    } else {
      OthersApart(w, b, m, r);
    }
  }

  lemma {:induction false} UncrossedApart(ws: seq<World>, moves: seq<Move>, b: Bounds, i: nat)
    requires History(ws, moves, b) && AllTimely(ws, moves, b) && i < |ws|
    requires forall k :: 0 <= k < |moves| ==> !Crosses(ws[k], moves[k])
    ensures PoolsApart(ws[i])
  {
    if i > 0 {
      var k: nat :| k + 1 == i;
      UncrossedApart(ws, moves, b, k);
      BothSafeEver(ws, moves, b, k);
      MoveCrosses(ws[k], b, moves[k], ws[i]);
    }
  }

  /**
   * Throughout a history no id is active and pending at once if and only if no conclusion and no re-insertion
   * takes an id into one pool that is, as seen before it, in the other.
   */
  lemma ApartEverIff(ws: seq<World>, moves: seq<Move>, b: Bounds)
    requires History(ws, moves, b) && AllTimely(ws, moves, b)
    ensures (forall i :: 0 <= i < |ws| ==> PoolsApart(ws[i])) <==> forall k :: 0 <= k < |moves| ==> !Crosses(ws[k], moves[k])
  {
    if forall k :: 0 <= k < |moves| ==> !Crosses(ws[k], moves[k]) {
      forall i | 0 <= i < |ws| ensures PoolsApart(ws[i]) { UncrossedApart(ws, moves, b, i); }
    }
    if forall i :: 0 <= i < |ws| ==> PoolsApart(ws[i]) {
      forall k | 0 <= k < |moves| ensures !Crosses(ws[k], moves[k]) {
        BothSafeEver(ws, moves, b, k);
        assert Next(ws[k], b, moves[k], ws[k + 1]) && PoolsApart(ws[k + 1]);
        MoveCrosses(ws[k], b, moves[k], ws[k + 1]);
      }
    }
  }
}
