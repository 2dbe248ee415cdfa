/** A whole submission: seen cache, validation, timelocks, and the two pools (src/mempool/submit.rs). */
module Submissions {
  import opened Prelude
  import opened Items
  import opened PoolState
  import opened PoolInvariants
  import opened Timelocks
  import opened Rbf
  import opened Admission
  import opened ActivePools
  import opened PendingPools
  import opened SeenCaches
  import opened Admitted

  /** What validation yields for a bundle it accepts. */
  datatype Validated = Validated(
    fee: U64, reserveFee: U64, cost: U64, numSpends: U64,
    removals: seq<CoinId>, additions: seq<CoinId>,
    conditions: Conditions, launcher: Option<Id>, dedupKeys: seq<DedupKey>)

  /** The caller's view of the chain, the policy's verdict, and the configured limits. */
  datatype Setting = Setting(records: map<CoinId, CoinRecord>, height: U64, timestamp: U64, policyAccepts: bool,
                             maxBundleCost: U64, active: Config, pending: Limits)

  function WindowFor(b: Validated, s: Setting): Window {
    Folded(b.conditions, s.records, s.height, s.timestamp, |b.conditions.spends|)
  }

  /** Why a validated bundle is turned away before it reaches either pool, or where it goes. */
  function Screened(b: Validated, s: Setting): Route {
    if b.fee < b.reserveFee then Rejected(InsufficientFee(b.reserveFee, b.fee))
    else if b.cost > s.maxBundleCost then Rejected(CostExceeded(b.cost, s.maxBundleCost))
    else Routed(WindowFor(b, s), s.height, s.timestamp)
  }

  function CandidateFor(id: Id, b: Validated, w: Window): Candidate {
    Candidate(id, b.fee, b.cost, b.numSpends, b.removals, b.additions, w, b.launcher, b.dedupKeys)
  }

  function ViewOf(s: Setting): Chainview { Chainview(s.records.Keys, s.height, s.policyAccepts) }

  /** A timelocked item stands alone: no parents, no dedup, package values of its own. */
  function PendingItem(id: Id, b: Validated, w: Window, height: U64): Item {
    var vc := VirtualCost(b.cost, b.numSpends);
    var rate := FpcScaled(b.fee, vc);
    Item(id, b.fee, b.cost, vc, rate, b.fee, vc, rate, rate, b.additions, b.removals, height, b.numSpends,
         w.assertHeight, w.assertSeconds, w.beforeHeight, w.beforeSeconds, {}, 0, b.launcher, 0, vc, [])
  }

  /** What an item keeps of its bundle: everything in its place. */
  lemma PendingItemMeans(id: Id, b: Validated, w: Window, height: U64)
    ensures var i := PendingItem(id, b, w, height);
      && i.id == id && i.fee == b.fee && i.cost == b.cost && i.numSpends == b.numSpends
      && i.removals == b.removals && i.additions == b.additions && i.launcher == b.launcher && i.heightAdded == height
      && i.assertHeight == w.assertHeight && i.assertSeconds == w.assertSeconds
      && i.assertBeforeHeight == w.beforeHeight && i.assertBeforeSeconds == w.beforeSeconds
      && i.virtualCost == VirtualCost(b.cost, b.numSpends) == i.effectiveVirtualCost == i.packageVirtualCost
      && i.packageFee == b.fee && i.fpc == i.packageFpc == i.descendantScore == FpcScaled(i.fee, i.virtualCost)
      && i.dependsOn == {} && i.depth == 0 && i.costSaving == 0 && i.dedupKeys == []
  {
  }

  lemma CandidateMeans(id: Id, b: Validated, w: Window, s: Setting)
    ensures var c := CandidateFor(id, b, w);
      && c.id == id && c.fee == b.fee && c.cost == b.cost && c.numSpends == b.numSpends && c.window == w
      && c.removals == b.removals && c.additions == b.additions && c.launcher == b.launcher && c.dedupKeys == b.dedupKeys
    ensures ViewOf(s).onChain == s.records.Keys && ViewOf(s).height == s.height && ViewOf(s).policyAccepts == s.policyAccepts
  {
  }

  /** Every answer of the screening, and exactly when it is given. */
  lemma ScreenedMeans(b: Validated, s: Setting)
    ensures var r, w := Screened(b, s), WindowFor(b, s);
      var paid, cheap := b.reserveFee <= b.fee, b.cost <= s.maxBundleCost;
      var empty := || (w.assertHeight.Some? && w.beforeHeight.Some? && w.beforeHeight.value <= w.assertHeight.value)
                  || (w.assertSeconds.Some? && w.beforeSeconds.Some? && w.beforeSeconds.value <= w.assertSeconds.value);
      var past := || (w.beforeHeight.Some? && w.beforeHeight.value <= s.height)
                  || (w.beforeSeconds.Some? && w.beforeSeconds.value <= s.timestamp);
      var early := || (w.assertHeight.Some? && s.height < w.assertHeight.value)
                   || (w.assertSeconds.Some? && s.timestamp < w.assertSeconds.value);
      && (r == Rejected(InsufficientFee(b.reserveFee, b.fee)) <==> !paid)
      && (r == Rejected(CostExceeded(b.cost, s.maxBundleCost)) <==> paid && !cheap)
      && (r == Rejected(ImpossibleTimelocks) <==> paid && cheap && empty)
      && (r == Rejected(Expired) <==> paid && cheap && !empty && past)
      && (r == Route.Pending <==> paid && cheap && !empty && !past && early)
      && (r == Active <==> paid && cheap && !empty && !past && !early)
  {
    RoutedMeans(WindowFor(b, s), s.height, s.timestamp);
  }

  datatype Outcome = Admitted | Waiting(height: U64) | Refused(error: MempoolError)

  /** Phase 0: refuse what was seen, or is still in a pool; remember everything else before validating it. */
  method Announce(pool: ActivePool, pending: PendingPool, seen: SeenCache, id: Id) returns (isNew: bool)
    requires seen.Valid()
    modifies seen
    ensures seen.Valid()
    ensures isNew <==> id !in old(seen.order) && id !in pool.items && id !in pending.pending
    ensures seen.accepted == if id in old(seen.order) then old(seen.accepted) else old(seen.accepted) + [id]
  {
    var added := seen.Insert(id);
    isNew := added && id !in pool.items && id !in pending.pending;
  }

  method Submit(pool: ActivePool, pending: PendingPool, seen: SeenCache, id: Id, validation: Result<Validated, MempoolError>,
                s: Setting)
    returns (outcome: Outcome, ghost d: Displaced)
    requires Sound(pool.Model()) && PendingSound(pending.Model()) && seen.Valid()
    modifies pool, pending, seen
    ensures seen.Valid()
    ensures seen.accepted == if id in old(seen.order) then old(seen.accepted) else old(seen.accepted) + [id]
    ensures Outcomes(old(pool.Model()), old(pending.Model()), id in old(seen.order), id, validation, s, d,
                     pool.Model(), pending.Model(), outcome)
  {
    d := Displaced([], NO_EVICTION);
    var isNew := Announce(pool, pending, seen, id);
    if !isNew { return Refused(AlreadySeen(id)), d; }
    if validation.Err? { return Refused(validation.error), d; }
    var b := validation.value;
    var w := Resolve(b.conditions, s.records, s.height, s.timestamp);
    assert w == WindowFor(b, s);
    match Screened(b, s)
    case Rejected(e) => return Refused(e), d;
    case Pending =>
      var r := pending.Submit(PendingItem(id, b, w, s.height), s.pending);
      outcome := if r.Ok? then Waiting(r.value) else Refused(r.error);
    case Active =>
      var answer;
      answer, d := Commit(pool, CandidateFor(id, b, w), ViewOf(s), s.active);
      outcome := if answer.None? then Admitted else Refused(answer.value);
  }

  /** How the two pools and the answer follow from the state before. */
  ghost predicate Outcomes(p: Pool, q: Pending, known: bool, id: Id, validation: Result<Validated, MempoolError>, s: Setting,
                           d: Displaced, p': Pool, q': Pending, outcome: Outcome)
    requires CoinsTrue(p) && PendingSound(q)
  {
    if known || id in p.items || id in q.items then p' == p && q' == q && outcome == Refused(AlreadySeen(id))
    else Concluded(p, q, id, validation, s, d, p', q', outcome)
  }

  /** What becomes of a bundle that was new when it was announced, whatever the pools have turned into since. */
  ghost predicate Concluded(p: Pool, q: Pending, id: Id, validation: Result<Validated, MempoolError>, s: Setting,
                            d: Displaced, p': Pool, q': Pending, outcome: Outcome)
    requires CoinsTrue(p) && PendingSound(q)
  {
    if validation.Err? then p' == p && q' == q && outcome == Refused(validation.error)
    else
      var b := validation.value;
      var w := WindowFor(b, s);
      match Screened(b, s)
      case Rejected(e) => p' == p && q' == q && outcome == Refused(e)
      case Pending =>
        var (after, r) := Submitted(q, PendingItem(id, b, w, s.height), s.pending);
        p' == p && q' == after && outcome == if r.Ok? then Waiting(r.value) else Refused(r.error)
      case Active =>
        && q' == q
        && (outcome.Admitted? || outcome.Refused?)
        && Commits(p, CandidateFor(id, b, w), ViewOf(s), s.active, d, p',
                   if outcome.Admitted? then None else Some(outcome.error))
  }

  // ── What admission means ──

  /** The answers given before either pool is looked into, in this order, and nothing changes under any of them. */
  lemma OutcomeMeans(p: Pool, q: Pending, known: bool, id: Id, validation: Result<Validated, MempoolError>, s: Setting,
                     d: Displaced, p': Pool, q': Pending, outcome: Outcome)
    requires CoinsTrue(p) && PendingSound(q) && Outcomes(p, q, known, id, validation, s, d, p', q', outcome)
    ensures var seen := known || id in p.items || id in q.items;
      && (seen ==> outcome == Refused(AlreadySeen(id)) && p' == p && q' == q)
      && (!seen && validation.Err? ==> outcome == Refused(validation.error) && p' == p && q' == q)
    ensures !known && id !in p.items && id !in q.items && validation.Ok? ==>
      var b := validation.value;
      && (b.fee < b.reserveFee ==> outcome == Refused(InsufficientFee(b.reserveFee, b.fee)) && p' == p && q' == q)
      && (b.fee >= b.reserveFee && b.cost > s.maxBundleCost ==>
            outcome == Refused(CostExceeded(b.cost, s.maxBundleCost)) && p' == p && q' == q)
  {
  }

  /** Each submission touches one pool at most, and a fresh valid bundle is admitted only if it could be mined now. */
  lemma OnePoolAtMost(p: Pool, q: Pending, known: bool, id: Id, validation: Result<Validated, MempoolError>, s: Setting,
                      d: Displaced, p': Pool, q': Pending, outcome: Outcome)
    requires CoinsTrue(p) && PendingSound(q)
    requires Outcomes(p, q, known, id, validation, s, d, p', q', outcome)
    ensures p' == p || q' == q
    ensures outcome.Admitted? ==>
      && validation.Ok? && validation.value.reserveFee <= validation.value.fee && validation.value.cost <= s.maxBundleCost
      && OpenAt(WindowFor(validation.value, s), s.height, s.timestamp)
      && id in p'.items && q' == q
    ensures outcome.Waiting? ==> validation.Ok? && !OpenAt(WindowFor(validation.value, s), s.height, s.timestamp) && p' == p
  {
    if outcome.Admitted? || outcome.Waiting? {
      ActiveIffOpenNow(WindowFor(validation.value, s), s.height, s.timestamp);
    }
    if outcome.Admitted? {
      var c := CandidateFor(id, validation.value, WindowFor(validation.value, s));
      AdmittedIsActive(p, c, ViewOf(s), s.active, d, p');
    }
  }

  lemma AdmittedIsActive(p: Pool, c: Candidate, v: Chainview, cfg: Config, d: Displaced, r: Pool)
    requires CoinsTrue(p) && Commits(p, c, v, cfg, d, r, None)
    ensures c.id in r.items
  {
  }

  /** Whatever is submitted, both pools keep their invariants and their limits. */
  lemma SubmissionKeeps(p: Pool, q: Pending, known: bool, id: Id, validation: Result<Validated, MempoolError>, s: Setting,
                        d: Displaced, p': Pool, q': Pending, outcome: Outcome)
    requires Sound(p) && WithinLimits(p, s.active) && Detectable(s.active)
    requires PendingSound(q) && Within(q, s.pending) && s.pending.maxCost < U64_MAX
    requires validation.Ok? ==> NoDup(validation.value.dedupKeys)
    requires Outcomes(p, q, known, id, validation, s, d, p', q', outcome)
    ensures Sound(p') && WithinLimits(p', s.active)
    ensures PendingSound(q') && Within(q', s.pending)
  {
    if !known && id !in p.items && id !in q.items { ConcludedKeeps(p, q, id, validation, s, d, p', q', outcome); }
  }

  lemma ConcludedKeeps(p: Pool, q: Pending, id: Id, validation: Result<Validated, MempoolError>, s: Setting,
                       d: Displaced, p': Pool, q': Pending, outcome: Outcome)
    requires Sound(p) && WithinLimits(p, s.active) && Detectable(s.active)
    requires PendingSound(q) && Within(q, s.pending) && s.pending.maxCost < U64_MAX
    requires validation.Ok? ==> NoDup(validation.value.dedupKeys)
    requires Concluded(p, q, id, validation, s, d, p', q', outcome)
    ensures Sound(p') && WithinLimits(p', s.active)
    ensures PendingSound(q') && Within(q', s.pending)
  {
    if validation.Ok? {
      var b, w := validation.value, WindowFor(validation.value, s);
      match Screened(b, s)
      case Rejected(_) =>
      case Pending => SubmittedKeeps(q, PendingItem(id, b, w, s.height), s.pending);
      case Active =>
        CommitKeeps(p, CandidateFor(id, b, w), ViewOf(s), s.active, d, p',
                    if outcome.Admitted? then None else Some(outcome.error));
    }
  }

  /** A submission adds its own id to one pool at most, and no other id to either. */
  lemma ConcludedIds(p: Pool, q: Pending, id: Id, validation: Result<Validated, MempoolError>, s: Setting,
                     d: Displaced, p': Pool, q': Pending, outcome: Outcome)
    requires CoinsTrue(p) && PendingSound(q) && Concluded(p, q, id, validation, s, d, p', q', outcome)
    ensures p'.items.Keys <= p.items.Keys + {id} && q'.items.Keys <= q.items.Keys + {id}
    ensures p' == p || q' == q
  {
    if validation.Ok? {
      var b, w := validation.value, WindowFor(validation.value, s);
      match Screened(b, s)
      case Rejected(_) =>
      case Pending => SubmittedIds(q, PendingItem(id, b, w, s.height), s.pending);
      case Active =>
        CommitIds(p, CandidateFor(id, b, w), ViewOf(s), s.active, d, p',
                  if outcome.Admitted? then None else Some(outcome.error));
    }
  }

  lemma SubmittedIds(q: Pending, item: Item, limits: Limits)
    requires PendingSound(q)
    ensures Submitted(q, item, limits).0.items.Keys <= q.items.Keys + {item.id}
  {
    SubmittedCases(q, item, limits);
    ClearedFree(q, item);
  }

  lemma CommitIds(p: Pool, c: Candidate, v: Chainview, cfg: Config, d: Displaced, r: Pool, answer: Option<MempoolError>)
    requires CoinsTrue(p) && Commits(p, c, v, cfg, d, r, answer)
    ensures r.items.Keys <= p.items.Keys + {c.id}
  {
    CommitCases(p, c, v, cfg, d, r, answer);
    if r != p {
      RemoveSeqKeys(p, Gone(d));
      BuiltFields(p, RemoveSeq(p, d.replaced), c, v);
      AdmitItems(RemoveSeq(p, Gone(d)), Built(p, RemoveSeq(p, d.replaced), c, v));
    }
  }
}
