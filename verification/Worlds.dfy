/**
 * Both pools and the seen cache together, with submissions still being validated while others are
 * announced, blocks settled and items evicted (src/mempool/submit.rs:126-180, 492-580, 588-850).
 */
module Worlds {
  import opened Prelude
  import opened PoolState
  import opened PoolInvariants
  import opened Rbf
  import opened Admission
  import opened Admitted
  import opened Lifecycle
  import opened PendingPools
  import opened SeenCaches
  import opened Submissions
  import opened Items
  import opened Persistence
  import opened Reinsertions
  import opened PendingRuns
  import Runs

  /**
   * `log` is what was announced since the cache was last cleared. A submission goes through three stages: its
   * id has been `noted`, it has `looked` into the active pool, and, not found pending either, it is `flying`
   * until its validation is over.
   */
  datatype World = World(pool: Pool, pending: Pending, log: seq<Id>, noted: multiset<Id>, looked: multiset<Id>, flying: multiset<Id>)

  datatype Bounds = Bounds(active: Config, pending: Limits, seen: nat)

  /** One locked section each. */
  datatype Move =
    | Noting(id: Id)
    | ActiveLook(id: Id)
    | PendingLook(id: Id)
    | Conclusion(id: Id, validation: Result<Validated, MempoolError>, s: Setting, d: Displaced, outcome: Outcome)
    | Forgetting
    | Settlement(height: U64, timestamp: U64, spent: seq<CoinId>, gone: seq<Id>, events: seq<Event>)
    | Maturing(height: U64, timestamp: U64)
    | Shedding(gone: seq<Id>, events: seq<Event>)
    | Withdrawal(id: Id)
    | Emptying
    | PendingEmptying
    | Return(saved: Pool, listing: seq<Item>)
    | PendingReturn(kept: Pending, listing: seq<Item>)

  /** Refused if the cache has it, and else remembered before anything else. */
  ghost function Noted(w: World, b: Bounds, id: Id): World {
    if id in Recent(w.log, b.seen) then w else w.(log := w.log + [id], noted := w.noted + multiset{id})
  }

  ghost predicate Next(w: World, b: Bounds, m: Move, r: World) {
    match m
    case Noting(id) => r == Noted(w, b, id)
    case ActiveLook(id) =>
      && id in w.noted
      && r == w.(noted := w.noted - multiset{id}, looked := if id in w.pool.items then w.looked else w.looked + multiset{id})
    case PendingLook(id) =>
      && id in w.looked
      && r == w.(looked := w.looked - multiset{id}, flying := if id in w.pending.items then w.flying else w.flying + multiset{id})
    case Conclusion(id, validation, s, d, outcome) => Concludes(w, b, m, r)
    case Forgetting => r == w.(log := [])
    case Settlement(height, timestamp, spent, gone, events) =>
      Settles(w.pool, height, timestamp, spent, gone, events) && r == w.(pool := RemoveSeq(w.pool, gone))
    case Maturing(height, timestamp) => Drained(w.pending, height, timestamp, r.pending) && r == w.(pending := r.pending)
    case Shedding(gone, events) => Phase(w.pool, gone, events) && r == w.(pool := RemoveSeq(w.pool, gone))
    case Withdrawal(id) => r == w.(pool := Remove(w.pool, id))
    case Emptying => r == w.(pool := EMPTY)
    case PendingEmptying => r == w.(pending := NOTHING)
    case Return(saved, xs) => Listing(saved.items, xs) && r == w.(pool := InsertAll(w.pool, xs))
    case PendingReturn(kept, xs) => Listing(kept.items, xs) && r == w.(pending := PendingInsertAll(w.pending, xs))
  }

  /** What is re-inserted is the snapshot of an earlier world. */
  ghost predicate Sourced(ws: seq<World>, i: nat, m: Move)
    requires i < |ws|
  {
    match m
    case Return(saved, _) => exists j :: 0 <= j <= i && ws[j].pool == saved
    case PendingReturn(kept, _) => exists j :: 0 <= j <= i && ws[j].pending == kept
    case _ => true
  }

  /** The validated bundle meets the pools as they are now. */
  ghost predicate Concludes(w: World, b: Bounds, m: Move, r: World)
    requires m.Conclusion?
  {
    && m.id in w.flying && CoinsTrue(w.pool) && PendingSound(w.pending) && m.s.active == b.active && m.s.pending == b.pending
    && (m.validation.Ok? ==> NoDup(m.validation.value.dedupKeys))
    && Concluded(w.pool, w.pending, m.id, m.validation, m.s, m.d, r.pool, r.pending, m.outcome)
    && r == w.(pool := r.pool, pending := r.pending, flying := w.flying - multiset{m.id})
  }

  const NEW_WORLD: World := World(EMPTY, NOTHING, [], multiset{}, multiset{}, multiset{})

  ghost predicate History(ws: seq<World>, moves: seq<Move>, b: Bounds) {
    && |ws| == |moves| + 1 && ws[0] == NEW_WORLD && Detectable(b.active) && b.pending.maxCost < U64_MAX
    && forall i :: 0 <= i < |moves| ==> Next(ws[i], b, moves[i], ws[i + 1]) && Sourced(ws, i, moves[i])
  }

  // ── A submission that nobody comes between ──

  /** Its first moves: it ends up flying exactly if it is new everywhere. */
  ghost predicate LooksAround(w: World, b: Bounds, id: Id, unseen: bool, r: World) {
    if id in Recent(w.log, b.seen) then !unseen && Next(w, b, Noting(id), r)
    else exists x :: Next(w, b, Noting(id), x) && LooksOn(x, b, id, unseen, r)
  }

  ghost predicate LooksOn(x: World, b: Bounds, id: Id, unseen: bool, r: World) {
    if id in x.pool.items then !unseen && Next(x, b, ActiveLook(id), r)
    else exists y :: Next(x, b, ActiveLook(id), y) && unseen == (id !in y.pending.items) && Next(y, b, PendingLook(id), r)
  }

  lemma LookingAround(w: World, b: Bounds, id: Id) returns (unseen: bool, r: World)
    ensures LooksAround(w, b, id, unseen, r)
    ensures unseen <==> id !in Recent(w.log, b.seen) && id !in w.pool.items && id !in w.pending.items
    ensures r == w.(log := if id in Recent(w.log, b.seen) then w.log else w.log + [id],
                    flying := if unseen then w.flying + multiset{id} else w.flying)
  {
    var x := Noted(w, b, id);
    unseen := id !in Recent(w.log, b.seen) && id !in w.pool.items && id !in w.pending.items;
    r := w.(log := x.log, flying := if unseen then w.flying + multiset{id} else w.flying);
    if id !in Recent(w.log, b.seen) {
      assert x.noted - multiset{id} == w.noted;
      assert Next(w, b, Noting(id), x);
      if id !in w.pool.items {
        var y := x.(noted := w.noted, looked := w.looked + multiset{id});
        assert y.looked - multiset{id} == w.looked;
        assert Next(x, b, ActiveLook(id), y) && Next(y, b, PendingLook(id), r);
      }
    }
  }

  /** The whole submission is these moves and, if the bundle is new, its conclusion. */
  lemma UninterruptedIs(w: World, b: Bounds, id: Id, validation: Result<Validated, MempoolError>, s: Setting,
                        d: Displaced, p': Pool, q': Pending, outcome: Outcome) returns (unseen: bool, mid: World)
    requires CoinsTrue(w.pool) && PendingSound(w.pending) && s.active == b.active && s.pending == b.pending
    requires validation.Ok? ==> NoDup(validation.value.dedupKeys)
    requires Outcomes(w.pool, w.pending, id in Recent(w.log, b.seen), id, validation, s, d, p', q', outcome)
    ensures LooksAround(w, b, id, unseen, mid)
    ensures unseen ==> Next(mid, b, Conclusion(id, validation, s, d, outcome), w.(pool := p', pending := q', log := mid.log))
    ensures !unseen ==> outcome == Refused(AlreadySeen(id)) && mid.(log := w.log) == w && p' == w.pool && q' == w.pending
  {
    unseen, mid := LookingAround(w, b, id);
    assert w.flying + multiset{id} - multiset{id} == w.flying;
  }

  /** A world that some history leads to. */
  ghost predicate Comes(w: World, b: Bounds) { exists ws, moves :: History(ws, moves, b) && ws[|moves|] == w }

  lemma NewWorldComes(b: Bounds)
    requires Detectable(b.active) && b.pending.maxCost < U64_MAX
    ensures Comes(NEW_WORLD, b)
  {
    assert History([NEW_WORLD], [], b);
  }

  lemma HistoryGoesOn(ws: seq<World>, moves: seq<Move>, b: Bounds, m: Move, r: World)
    requires History(ws, moves, b) && Next(ws[|moves|], b, m, r) && Sourced(ws, |moves|, m)
    ensures History(ws + [r], moves + [m], b)
  {
    var more, longer := ws + [r], moves + [m];
    forall i | 0 <= i < |longer| ensures Next(more[i], b, longer[i], more[i + 1]) && Sourced(more, i, longer[i]) {
      if i < |moves| { assert Next(ws[i], b, moves[i], ws[i + 1]) && Sourced(ws, i, moves[i]); }
      StillSourced(ws, more, i, longer[i]);
    }
  }

  lemma StillSourced(ws: seq<World>, more: seq<World>, i: nat, m: Move)
    requires i < |ws| <= |more| && Sourced(ws, i, m) && forall j :: 0 <= j <= i ==> more[j] == ws[j]
    ensures Sourced(more, i, m)
  {
    match m
    case Return(saved, _) =>
      var j :| 0 <= j <= i && ws[j].pool == saved;
      assert more[j].pool == saved;
    case PendingReturn(kept, _) =>
      var j :| 0 <= j <= i && ws[j].pending == kept;
      assert more[j].pending == kept;
    case _ =>
  }

  lemma ComesNext(w: World, b: Bounds, m: Move, r: World)
    requires Comes(w, b) && Next(w, b, m, r) && !m.Return? && !m.PendingReturn?
    ensures Comes(r, b)
  {
    var ws, moves :| History(ws, moves, b) && ws[|moves|] == w;
    HistoryGoesOn(ws, moves, b, m, r);
    assert (ws + [r])[|moves + [m]|] == r;
  }

  lemma ComesAround(w: World, b: Bounds, id: Id) returns (unseen: bool, r: World)
    requires Comes(w, b)
    ensures LooksAround(w, b, id, unseen, r) && Comes(r, b)
    ensures unseen <==> id !in Recent(w.log, b.seen) && id !in w.pool.items && id !in w.pending.items
    ensures r == w.(log := if id in Recent(w.log, b.seen) then w.log else w.log + [id],
                    flying := if unseen then w.flying + multiset{id} else w.flying)
  {
    unseen, r := LookingAround(w, b, id);
    if id in Recent(w.log, b.seen) {
      ComesNext(w, b, Noting(id), r);
    } else {
      var x :| Next(w, b, Noting(id), x) && LooksOn(x, b, id, unseen, r);
      ComesNext(w, b, Noting(id), x);
      if id in x.pool.items {
        ComesNext(x, b, ActiveLook(id), r);
      } else {
        var y :| Next(x, b, ActiveLook(id), y) && unseen == (id !in y.pending.items) && Next(y, b, PendingLook(id), r);
        ComesNext(x, b, ActiveLook(id), y);
        ComesNext(y, b, PendingLook(id), r);
      }
    }
  }

  // ── Each pool on its own ──

  ghost predicate BothSafe(w: World, b: Bounds) {
    Runs.Safe(w.pool, b.active) && PendingSound(w.pending) && Within(w.pending, b.pending)
  }

  lemma ConclusionSafe(w: World, b: Bounds, m: Move, r: World)
    requires BothSafe(w, b) && Detectable(b.active) && b.pending.maxCost < U64_MAX && m.Conclusion? && Concludes(w, b, m, r)
    ensures BothSafe(r, b)
  {
    ConcludedKeeps(w.pool, w.pending, m.id, m.validation, m.s, m.d, r.pool, r.pending, m.outcome);
    ConcludedShallow(w.pool, w.pending, m.id, m.validation, m.s, m.d, r.pool, r.pending, m.outcome);
  }

  lemma ConcludedShallow(p: Pool, q: Pending, id: Id, validation: Result<Validated, MempoolError>, s: Setting,
                         d: Displaced, p': Pool, q': Pending, outcome: Outcome)
    requires CoinsTrue(p) && PendingSound(q) && Shallow(p, s.active) && Concluded(p, q, id, validation, s, d, p', q', outcome)
    ensures Shallow(p', s.active)
  {
    if validation.Ok? && Screened(validation.value, s).Active? {
      CommitShallow(p, CandidateFor(id, validation.value, WindowFor(validation.value, s)), ViewOf(s), s.active, d, p',
                    if outcome.Admitted? then None else Some(outcome.error));
    }
  }

  /** Known before the move: what is re-inserted finds room and nobody in its way. */
  ghost predicate Timely(w: World, b: Bounds, m: Move) {
    match m
    case Return(saved, _) => Reinsertable(w.pool, saved.items, b.active)
    case PendingReturn(kept, _) => PendingReinsertable(w.pending, kept, b.pending)
    case _ => true
  }

  ghost predicate AllTimely(ws: seq<World>, moves: seq<Move>, b: Bounds) {
    |ws| == |moves| + 1 && forall k :: 0 <= k < |moves| ==> Timely(ws[k], b, moves[k])
  }

  /** A snapshot of a pool that kept its own invariants and limits. */
  ghost predicate SafeSource(b: Bounds, m: Move) {
    match m
    case Return(saved, _) => Runs.Safe(saved, b.active)
    case PendingReturn(kept, _) => PendingSound(kept)
    case _ => true
  }

  lemma ReturnSafe(w: World, b: Bounds, m: Move, r: World)
    requires BothSafe(w, b) && (m.Return? || m.PendingReturn?) && Next(w, b, m, r) && SafeSource(b, m) && b.pending.maxCost < U64_MAX
    ensures BothSafe(r, b) <==> Timely(w, b, m)
  {
    match m
    case Return(saved, xs) =>
      ReinsertionSafeIff(w.pool, saved, xs, b.active);
      if Timely(w, b, m) { Runs.ReinsertionSafe(w.pool, saved, xs, b.active); }
    case PendingReturn(kept, xs) => PendingReinsertionSafeIff(w.pending, kept, xs, b.pending);
  }

  lemma RemovalMoveSafe(w: World, b: Bounds, m: Move, r: World)
    requires Runs.Safe(w.pool, b.active) && (m.Settlement? || m.Shedding? || m.Withdrawal?) && Next(w, b, m, r)
    ensures Runs.Safe(r.pool, b.active) && r.pending == w.pending
  {
    match m
    case Settlement(_, _, _, gone, _) => Runs.RemovalSafe(w.pool, gone, b.active);
    case Shedding(gone, _) => Runs.RemovalSafe(w.pool, gone, b.active);
    case Withdrawal(id) => Runs.RemoveIsSeq(w.pool, id); Runs.RemovalSafe(w.pool, [id], b.active);
  }

  lemma MoveSafe(w: World, b: Bounds, m: Move, r: World)
    requires BothSafe(w, b) && Detectable(b.active) && b.pending.maxCost < U64_MAX && Next(w, b, m, r) && SafeSource(b, m)
    ensures BothSafe(r, b) <==> Timely(w, b, m)
  {
    match m
    case Conclusion(_, _, _, _, _) => ConclusionSafe(w, b, m, r);
    case Settlement(_, _, _, _, _) => RemovalMoveSafe(w, b, m, r);
    case Shedding(_, _) => RemovalMoveSafe(w, b, m, r);
    case Withdrawal(_) => RemovalMoveSafe(w, b, m, r);
    case Maturing(height, timestamp) => DrainKeeps(w.pending, height, timestamp, r.pending, b.pending);
    case Emptying => Runs.EmptySafe(b.active);
    case PendingEmptying => NothingSafe(b.pending);
    case Return(_, _) => ReturnSafe(w, b, m, r);
    case PendingReturn(_, _) => ReturnSafe(w, b, m, r);
    case _ =>
  }

  /** The world whose snapshot a move puts back, if it does, and else the world before it. */
  lemma SourceOf(ws: seq<World>, moves: seq<Move>, b: Bounds, k: nat) returns (j: nat)
    requires History(ws, moves, b) && k < |moves|
    ensures j <= k && k + 1 < |ws| && (BothSafe(ws[j], b) ==> SafeSource(b, moves[k]))
  {
    assert Sourced(ws, k, moves[k]);
    j := k;
    if moves[k].Return? { j :| 0 <= j <= k && ws[j].pool == moves[k].saved; }
    if moves[k].PendingReturn? { j :| 0 <= j <= k && ws[j].pending == moves[k].kept; }
  }

  /** However submissions overlap, each pool keeps its own invariants and limits while re-insertions are timely. */
  lemma {:induction false} BothSafeEver(ws: seq<World>, moves: seq<Move>, b: Bounds, i: nat)
    requires History(ws, moves, b) && AllTimely(ws, moves, b) && i < |ws|
    ensures BothSafe(ws[i], b)
  {
    if i == 0 {
      Runs.EmptySafe(b.active);
      NothingSafe(b.pending);
    } else {
      var k: nat :| k + 1 == i;
      var j := SourceOf(ws, moves, b, k);
      BothSafeEver(ws, moves, b, k);
      BothSafeEver(ws, moves, b, j);
      MoveSafe(ws[k], b, moves[k], ws[i]);
    }
  }

  /** And only then. */
  lemma BothSafeEverIff(ws: seq<World>, moves: seq<Move>, b: Bounds)
    requires History(ws, moves, b)
    ensures (forall i :: 0 <= i < |ws| ==> BothSafe(ws[i], b)) <==> AllTimely(ws, moves, b)
  {
    if AllTimely(ws, moves, b) {
      forall i | 0 <= i < |ws| ensures BothSafe(ws[i], b) { BothSafeEver(ws, moves, b, i); }
    }
    if forall i :: 0 <= i < |ws| ==> BothSafe(ws[i], b) {
      forall k | 0 <= k < |moves| ensures Timely(ws[k], b, moves[k]) {
        var j := SourceOf(ws, moves, b, k);
        MoveSafe(ws[k], b, moves[k], ws[k + 1]);
      }
    }
  }

  // ── The two pools together ──

  /** How many submissions of a bundle are under way. */
  ghost function UnderWay(w: World, id: Id): nat { w.noted[id] + w.looked[id] + w.flying[id] }

  /**
   * No id is active and pending at once; nobody submits a bundle twice at the same time; and what was not found
   * in a pool has not got into it since.
   */
  ghost predicate Apart(w: World) {
    && w.pool.items.Keys !! w.pending.items.Keys
    && (forall id :: UnderWay(w, id) <= 1)
    && (forall id :: id in w.looked ==> id !in w.pool.items)
    && (forall id :: id in w.flying ==> id !in w.pool.items && id !in w.pending.items)
  }

  /**
   * Known before the move: nobody who passes the cache is under way already, and nothing is re-inserted that is
   * in the other pool or may still get in.
   */
  ghost predicate Lone(w: World, b: Bounds, m: Move) {
    match m
    case Noting(id) => id !in Recent(w.log, b.seen) ==> UnderWay(w, id) == 0
    case Return(saved, _) => forall id :: id in saved.items ==> id !in w.pending.items && UnderWay(w, id) == 0
    case PendingReturn(kept, _) => forall id :: id in kept.items ==> id !in w.pool.items && UnderWay(w, id) == 0
    case _ => true
  }

  ghost predicate AllLone(ws: seq<World>, moves: seq<Move>, b: Bounds) {
    |ws| == |moves| + 1 && forall k :: 0 <= k < |moves| ==> Lone(ws[k], b, moves[k])
  }

  lemma FewerApart(w: World, r: World)
    requires Apart(w) && r.pool.items.Keys <= w.pool.items.Keys && r.pending.items.Keys <= w.pending.items.Keys
    requires r.noted == w.noted && r.looked == w.looked && r.flying == w.flying
    ensures Apart(r)
  {
    forall id ensures UnderWay(r, id) == UnderWay(w, id) {}
  }

  lemma NotingApart(w: World, b: Bounds, id: Id)
    requires Apart(w) && Lone(w, b, Noting(id))
    ensures Apart(Noted(w, b, id))
  {
    var r := Noted(w, b, id);
    forall x ensures UnderWay(r, x) == UnderWay(w, x) + if x == id && r != w then 1 else 0 {}
  }

  lemma LookApart(w: World, b: Bounds, m: Move, r: World)
    requires Apart(w) && (m.ActiveLook? || m.PendingLook?) && Next(w, b, m, r)
    ensures Apart(r)
  {
    forall x ensures UnderWay(r, x) <= UnderWay(w, x) {}
  }

  lemma LandedApart(w: World, id: Id, r: World)
    requires Apart(w) && id in w.flying && r.noted == w.noted && r.looked == w.looked && r.flying == w.flying - multiset{id}
    requires r.pool.items.Keys <= w.pool.items.Keys + {id} && r.pending.items.Keys <= w.pending.items.Keys + {id}
    requires r.pool.items.Keys == w.pool.items.Keys || r.pending.items.Keys == w.pending.items.Keys
    ensures Apart(r)
  {
    assert UnderWay(w, id) <= 1;
    forall x ensures UnderWay(r, x) <= UnderWay(w, x) {}
    assert id !in r.flying && id !in r.looked;
  }

  lemma ConclusionApart(w: World, b: Bounds, m: Move, r: World)
    requires Apart(w) && m.Conclusion? && Concludes(w, b, m, r)
    ensures Apart(r)
  {
    ConcludedIds(w.pool, w.pending, m.id, m.validation, m.s, m.d, r.pool, r.pending, m.outcome);
    LandedApart(w, m.id, r);
  }

  lemma ReturnApart(w: World, b: Bounds, m: Move, r: World)
    requires Apart(w) && (m.Return? || m.PendingReturn?) && Next(w, b, m, r) && Lone(w, b, m)
    ensures Apart(r)
  {
    match m
    case Return(saved, xs) =>
      InsertAllKeys(w.pool, xs);
      MoreApart(w, r, saved.items.Keys);
    case PendingReturn(kept, xs) =>
      PendingKeys(w.pending, xs);
      MoreApart(w, r, kept.items.Keys);
  }

  lemma MoreApart(w: World, r: World, ids: set<Id>)
    requires Apart(w) && r.noted == w.noted && r.looked == w.looked && r.flying == w.flying && forall id :: id in ids ==> UnderWay(w, id) == 0
    requires || (r.pending == w.pending && r.pool.items.Keys == w.pool.items.Keys + ids && ids !! w.pending.items.Keys)
             || (r.pool == w.pool && r.pending.items.Keys == w.pending.items.Keys + ids && ids !! w.pool.items.Keys)
    ensures Apart(r)
  {
    forall x ensures UnderWay(r, x) == UnderWay(w, x) {}
    forall id | id in ids ensures id !in w.looked && id !in w.flying { assert UnderWay(w, id) == 0; }
  }

  lemma MoveApart(w: World, b: Bounds, m: Move, r: World)
    requires Apart(w) && Next(w, b, m, r) && Lone(w, b, m)
    ensures Apart(r)
  {
    match m
    case Noting(id) => NotingApart(w, b, id);
    case ActiveLook(_) => LookApart(w, b, m, r);
    case PendingLook(_) => LookApart(w, b, m, r);
    case Conclusion(_, _, _, _, _) => ConclusionApart(w, b, m, r);
    case Settlement(_, _, _, gone, _) => RemoveSeqKeys(w.pool, gone); FewerApart(w, r);
    case Shedding(gone, _) => RemoveSeqKeys(w.pool, gone); FewerApart(w, r);
    case Withdrawal(id) => Runs.RemoveIsSeq(w.pool, id); RemoveSeqKeys(w.pool, [id]); FewerApart(w, r);
    case Maturing(height, timestamp) => DrainedIds(w.pending, height, timestamp, r.pending); FewerApart(w, r);
    case Return(_, _) => ReturnApart(w, b, m, r);
    case PendingReturn(_, _) => ReturnApart(w, b, m, r);
    case _ => FewerApart(w, r);
  }

  /** As long as every move is lone, no id is active and pending at once, and no bundle is submitted twice at a time. */
  lemma {:induction false} LoneApart(ws: seq<World>, moves: seq<Move>, b: Bounds, i: nat)
    requires History(ws, moves, b) && AllLone(ws, moves, b) && i < |ws|
    ensures Apart(ws[i])
  {
    if i > 0 {
      var k: nat :| k + 1 == i;
      LoneApart(ws, moves, b, k);
      MoveApart(ws[k], b, moves[k], ws[i]);
    }
  }

  // ── As long as the cache remembers ──

  ghost predicate Remembered(w: World) { forall id :: UnderWay(w, id) > 0 ==> id in w.log }

  /** The cache is cleared only when no submission is under way. */
  ghost predicate Calm(w: World, m: Move) { m.Forgetting? ==> forall id :: UnderWay(w, id) == 0 }

  lemma MoveRemembered(w: World, b: Bounds, m: Move, r: World)
    requires Remembered(w) && Next(w, b, m, r) && Calm(w, m)
    ensures Remembered(r)
  {
    forall x | UnderWay(r, x) > 0 ensures UnderWay(w, x) > 0 || (m == Noting(x) && x in r.log) {}
  }

  lemma {:induction false} RememberedAt(ws: seq<World>, moves: seq<Move>, b: Bounds, i: nat)
    requires History(ws, moves, b) && i < |ws| && forall k :: 0 <= k < |moves| ==> Calm(ws[k], moves[k])
    ensures Remembered(ws[i])
  {
    if i > 0 {
      var k: nat :| k + 1 == i;
      RememberedAt(ws, moves, b, k);
      MoveRemembered(ws[k], b, moves[k], ws[i]);
    }
  }

  /**
   * Submissions are lone while the cache has room (or no bound) and no block clears it with a submission under
   * way; so the pools stay apart if re-insertions are lone as well.
   */
  lemma ApartWhileRemembered(ws: seq<World>, moves: seq<Move>, b: Bounds, i: nat)
    requires History(ws, moves, b) && i < |ws| && forall k :: 0 <= k < |moves| ==> Calm(ws[k], moves[k])
    requires b.seen == 0 || forall w :: w in ws ==> |w.log| <= b.seen
    requires forall k :: 0 <= k < |moves| && (moves[k].Return? || moves[k].PendingReturn?) ==> Lone(ws[k], b, moves[k])
    ensures Apart(ws[i])
  {
    forall k | 0 <= k < |moves| ensures Lone(ws[k], b, moves[k]) {
      RememberedAt(ws, moves, b, k);
      assert ws[k] in ws;
    }
    LoneApart(ws, moves, b, i);
  }
}
