/**
 * What `descendant_score` guarantees (src/pools/active.rs:236-322). The pool documents it as the
 * maximum over all descendants; the walk of an insertion may stop short of that.
 */
module Scores {
  import opened Prelude
  import opened Items
  import opened Graph
  import opened PoolState
  import opened PoolInvariants

  type Rates = map<Id, nat>

  ghost function ScoreOf(items: map<Id, Item>): Rates { map b | b in items :: items[b].descendantScore }
  ghost function OwnOf(items: map<Id, Item>): Rates { map b | b in items :: items[b].fpc }
  ghost function PackageOf(items: map<Id, Item>): Rates { map b | b in items :: items[b].packageFpc }

  ghost predicate CoversOwn(score: Rates, own: Rates) {
    score.Keys == own.Keys && forall b :: b in score ==> own[b] <= score[b]
  }

  /** A score covers the package rate of every recorded direct child. */
  ghost predicate CoversChildren(score: Rates, package: Rates, children: Edges) {
    forall b, c :: b in score && c in package && c in Succ(children, b) ==> package[c] <= score[b]
  }

  /** Only active items have recorded children, and scores cover the item and its direct children. */
  ghost predicate ScoresCover(p: Pool) {
    && p.dependents.Keys <= p.items.Keys
    && CoversOwn(ScoreOf(p.items), OwnOf(p.items))
    && CoversChildren(ScoreOf(p.items), PackageOf(p.items), p.dependents)
  }

  // ── Projections across the two primitives ──

  lemma AlikeRates(a: map<Id, Item>, b: map<Id, Item>)
    requires Alike(a, b)
    ensures OwnOf(a) == OwnOf(b) && PackageOf(a) == PackageOf(b)
  {
    forall x | x in a ensures a[x].fpc == b[x].fpc && a[x].packageFpc == b[x].packageFpc {
      AlikeFields(a, b, x);
    }
  }

  lemma DropRates(a: map<Id, Item>, id: Id)
    ensures OwnOf(a - {id}) == OwnOf(a) - {id} && PackageOf(a - {id}) == PackageOf(a) - {id}
  {
  }

  lemma RemoveRates(p: Pool, id: Id)
    ensures OwnOf(Remove(p, id).items) == OwnOf(p.items) - {id}
    ensures PackageOf(Remove(p, id).items) == PackageOf(p.items) - {id}
    ensures ScoreOf(Remove(p, id).items).Keys == p.items.Keys - {id}
  {
    RemoveItems(p, id);
    AlikeRates(Remove(p, id).items, p.items - {id});
    DropRates(p.items, id);
  }

  lemma AddRates(a: map<Id, Item>, item: Item)
    ensures ScoreOf(a[item.id := item]) == ScoreOf(a)[item.id := item.descendantScore]
    ensures OwnOf(a[item.id := item]) == OwnOf(a)[item.id := item.fpc]
    ensures PackageOf(a[item.id := item]) == PackageOf(a)[item.id := item.packageFpc]
  {
  }

  ghost function LiftedTo(score: Rates, who: set<Id>, rate: nat): Rates {
    map b | b in score :: if b in who then rate else score[b]
  }

  lemma RatedRates(a: map<Id, Item>, who: set<Id>, rate: U128)
    ensures ScoreOf(Rated(a, who, rate)) == LiftedTo(ScoreOf(a), who, rate)
    ensures OwnOf(Rated(a, who, rate)) == OwnOf(a) && PackageOf(Rated(a, who, rate)) == PackageOf(a)
  {
  }

  lemma AdmitStore(p: Pool, item: Item)
    ensures var r, q := Admit(p, item), Insert(p, item);
      && q.items == p.items[item.id := item]
      && r.items == Rated(q.items, Lifted(q.items, q.dependencies, item.id), item.packageFpc)
      && r.dependencies == q.dependencies && r.dependents == q.dependents
  {
  }

  /** The three projections after an admission. */
  lemma AdmitRates(p: Pool, item: Item)
    ensures var r, q := Admit(p, item).items, Insert(p, item);
      ScoreOf(r) == LiftedTo(ScoreOf(p.items)[item.id := item.descendantScore],
                             Lifted(q.items, q.dependencies, item.id), item.packageFpc)
    ensures OwnOf(Admit(p, item).items) == OwnOf(p.items)[item.id := item.fpc]
    ensures PackageOf(Admit(p, item).items) == PackageOf(p.items)[item.id := item.packageFpc]
    ensures Admit(p, item).items.Keys == p.items.Keys + {item.id}
  {
    var q := Insert(p, item);
    AdmitStore(p, item);
    AddRates(p.items, item);
    RatedRates(q.items, Lifted(q.items, q.dependencies, item.id), item.packageFpc);
  }

  // ── Lower bound: kept by every removal and by every insertion under active parents ──

  /** A rescored item covers its remaining children; every other score is as before. */
  lemma RescoreScore(p: Pool, id: Id, b: Id)
    requires id in p.items && b in Remove(p, id).items
    ensures var r := Remove(p, id);
      || r.items[b].descendantScore == p.items[b].descendantScore
      || (&& r.items[b].fpc <= r.items[b].descendantScore
          && forall c :: c in r.items && c in Succ(r.dependents, b) ==> r.items[c].packageFpc <= r.items[b].descendantScore)
  {
    var r := Remove(p, id);
    var rest := p.items - {id};
    RemoveItems(p, id);
    if b in Succ(p.dependencies, id) {
      assert r.items[b] == Rescored(rest, r.dependents, b);
      forall c | c in r.items && c in Succ(r.dependents, b)
        ensures r.items[c].packageFpc <= r.items[b].descendantScore
      {
        AlikeFields(r.items, rest, c);
        assert rest[c].packageFpc in ChildRates(rest, Succ(r.dependents, b));
      }
    }
  }

  lemma RemoveScores(p: Pool, id: Id)
    requires Edged(p) && ScoresCover(p)
    ensures ScoresCover(Remove(p, id))
  {
    if id in p.items {
      var r := Remove(p, id);
      RemoveRates(p, id);
      forall b | b in r.items
        ensures OwnOf(r.items)[b] <= ScoreOf(r.items)[b]
        ensures forall c :: c in r.items && c in Succ(r.dependents, b) ==> PackageOf(r.items)[c] <= ScoreOf(r.items)[b]
      {
        RescoreScore(p, id, b);
        RemoveChildren(p, id, b);
        assert ScoreOf(p.items)[b] >= OwnOf(p.items)[b];
      }
    }
  }

  /**
   * A parent of what is removed ends up with the largest of its own rate and the package rates of the active
   * children it has left; nobody else's score changes.
   */
  lemma RemoveMeans(p: Pool, id: Id, b: Id)
    requires Edged(p) && id in p.items && b in p.items && b != id
    ensures b in Remove(p, id).items
    ensures var score := Remove(p, id).items[b].descendantScore;
      if b in p.items[id].dependsOn then
        && score >= p.items[b].fpc
        && (forall c :: c in Succ(p.dependents, b) && c != id && c in p.items ==> score >= p.items[c].packageFpc)
        && (score == p.items[b].fpc || exists c :: c in Succ(p.dependents, b) && c != id && c in p.items && score == p.items[c].packageFpc)
      else score == p.items[b].descendantScore
  {
    var rest, r := p.items - {id}, Remove(p, id);
    SuccDependencies(p, id);
    RemoveItems(p, id);
    if b in p.items[id].dependsOn {
      RemovedChild(p, id, b);
      RescoredMeans(rest, r.dependents, b);
      var score := r.items[b].descendantScore;
      forall c | c in Succ(p.dependents, b) && c != id && c in p.items ensures score >= p.items[c].packageFpc {
        assert c in rest && rest[c] == p.items[c];
      }
    }
  }

  lemma RemovedChild(p: Pool, id: Id, b: Id)
    requires Edged(p) && id in p.items && b in p.items && b != id && b in p.items[id].dependsOn
    ensures Succ(Remove(p, id).dependents, b) == Succ(p.dependents, b) - {id}
    ensures b in Remove(p, id).items && Remove(p, id).items[b] == Rescored(p.items - {id}, Remove(p, id).dependents, b)
  {
    SuccDependencies(p, id);
  }

  lemma RescoredMeans(items: map<Id, Item>, children: Edges, b: Id)
    requires b in items
    ensures var score := Rescored(items, children, b).descendantScore;
      && score >= items[b].fpc && (forall c :: c in Succ(children, b) && c in items ==> score >= items[c].packageFpc)
      && (score == items[b].fpc || exists c :: c in Succ(children, b) && c in items && score == items[c].packageFpc)
  {
    var rates := ChildRates(items, Succ(children, b));
    forall c | c in Succ(children, b) && c in items ensures items[c].packageFpc in rates {}
  }

  lemma {:induction false} RemoveSeqScores(p: Pool, ids: seq<Id>)
    requires Edged(p) && ScoresCover(p)
    ensures ScoresCover(RemoveSeq(p, ids))
  {
    if ids != [] {
      RemoveSeqScores(p, ids[..|ids| - 1]);
      RemoveSeqChildren(p, ids[..|ids| - 1], 0);
      RemoveScores(RemoveSeq(p, ids[..|ids| - 1]), ids[|ids| - 1]);
    }
  }

  /** The walk lifts only lower scores, and leaves no parent below the newcomer's package rate. */
  lemma LiftedLow(items: map<Id, Item>, deps: Edges, id: Id)
    requires id in items
    ensures forall b :: b in items && b in Lifted(items, deps, id) ==> items[b].descendantScore < items[id].packageFpc
    ensures forall q :: q in Succ(deps, id) && q in items ==>
      q in Lifted(items, deps, id) || items[id].packageFpc <= items[q].descendantScore
  {
    ReachCovers(deps, Blocking(items, deps, items[id].packageFpc), Succ(deps, id));
  }

  /** Lifting repairs the one thing a new child can break: its own parents' scores. */
  lemma LiftCovers(score: Rates, own: Rates, package: Rates, children: Edges, parents: set<Id>, id: Id,
                   s0: nat, o0: nat, rate: nat, lifted: set<Id>)
    requires CoversOwn(score, own) && CoversChildren(score, package, children) && score.Keys == package.Keys
    requires id !in score && children.Keys <= score.Keys && parents <= score.Keys && o0 <= s0
    requires forall b :: Succ(children, b) <= score.Keys
    requires forall b :: b in lifted ==> b !in score[id := s0] || score[id := s0][b] < rate
    requires forall b :: b in parents ==> b in lifted || rate <= score[b]
    ensures CoversOwn(LiftedTo(score[id := s0], lifted, rate), own[id := o0])
    ensures CoversChildren(LiftedTo(score[id := s0], lifted, rate), package[id := rate], JoinChildren(children, parents, id))
  {
    var s, k, kids := LiftedTo(score[id := s0], lifted, rate), package[id := rate], JoinChildren(children, parents, id);
    forall b, c | b in s && c in k && c in Succ(kids, b) ensures k[c] <= s[b] {
      if c == id {
        assert b in parents;
      } else {
        assert c in Succ(children, b) && b in score && package[c] <= score[b];
      }
    }
  }

  lemma LiftedLowRates(items: map<Id, Item>, deps: Edges, id: Id)
    requires id in items
    ensures var score := ScoreOf(items);
      && (forall b :: b in Lifted(items, deps, id) ==> b !in score || score[b] < items[id].packageFpc)
      && (forall q :: q in Succ(deps, id) ==> q in Lifted(items, deps, id) || q !in score || items[id].packageFpc <= score[q])
  {
    LiftedLow(items, deps, id);
  }

  lemma InsertedRates(p: Pool, item: Item)
    requires Edged(p) && item.id !in p.items
    ensures var q := Insert(p, item);
      && ScoreOf(q.items) == ScoreOf(p.items)[item.id := item.descendantScore]
      && Succ(q.dependencies, item.id) == item.dependsOn
      && item.id in q.items && q.items[item.id].packageFpc == item.packageFpc
  {
    AddRates(p.items, item);
    SuccDependencies(p, item.id);
    assert Succ(Insert(p, item).dependencies, item.id) == item.dependsOn;
  }

  /** The bounds of `LiftedLow` for a newcomer, as they read on the projected scores. */
  lemma NewcomerBounds(p: Pool, item: Item, lifted: set<Id>)
    requires Edged(p) && item.id !in p.items && item.dependsOn <= p.items.Keys
    requires lifted == Lifted(Insert(p, item).items, Insert(p, item).dependencies, item.id)
    ensures var score := ScoreOf(p.items)[item.id := item.descendantScore];
      forall b :: b in lifted ==> b !in score || score[b] < item.packageFpc
    ensures forall b :: b in item.dependsOn ==> b in lifted || item.packageFpc <= ScoreOf(p.items)[b]
  {
    InsertedRates(p, item);
    LiftedLowRates(Insert(p, item).items, Insert(p, item).dependencies, item.id);
  }

  lemma AdmitScores(p: Pool, item: Item)
    requires Edged(p) && ScoresCover(p) && item.id !in p.items
    requires item.dependsOn <= p.items.Keys && item.fpc <= item.descendantScore
    ensures ScoresCover(Admit(p, item))
  {
    var lifted := Lifted(Insert(p, item).items, Insert(p, item).dependencies, item.id);
    NewcomerBounds(p, item, lifted);
    forall b ensures Succ(p.dependents, b) <= ScoreOf(p.items).Keys { ChildrenActive(p, b); }
    LiftCovers(ScoreOf(p.items), OwnOf(p.items), PackageOf(p.items), p.dependents, item.dependsOn, item.id,
               item.descendantScore, item.fpc, item.packageFpc, lifted);
    AdmitRates(p, item);
    AdmitStore(p, item);
  }

  // ── Upper bound: in add-only runs a score is one of the values it is documented to maximise ──

  ghost predicate Witness(score: Rates, package: Rates, deps: Edges, b: Id, d: Id) {
    b in score && d in package && b in Ancestors(deps, d) && score[b] == package[d]
  }

  /** Each score is the item's own rate or the package rate of one of its descendants. */
  ghost predicate Witnessed(score: Rates, own: Rates, package: Rates, deps: Edges) {
    && score.Keys == own.Keys
    && forall b :: b in score ==> score[b] == own[b] || exists d :: Witness(score, package, deps, b, d)
  }

  ghost predicate ScoresWitnessed(p: Pool) {
    Witnessed(ScoreOf(p.items), OwnOf(p.items), PackageOf(p.items), p.dependencies)
  }

  lemma LiftedAreAncestors(items: map<Id, Item>, deps: Edges, id: Id)
    requires id in items
    ensures Lifted(items, deps, id) <= Ancestors(deps, id)
  {
    ReachCovers(deps, {}, Succ(deps, id));
    ReachLeast(deps, Blocking(items, deps, items[id].packageFpc), Succ(deps, id), Ancestors(deps, id));
  }

  /** Insertion takes no ancestors away. */
  lemma InsertAncestors(g: Edges, parents: set<Id>, id: Id, d: Id)
    ensures Ancestors(g, d) <= Ancestors(JoinParents(g, parents, id), d)
  {
    var h := JoinParents(g, parents, id);
    forall x ensures Succ(g, x) <= Succ(h, x) {}
    ReachCovers(h, {}, Succ(h, d));
    assert Succ(g, d) <= Succ(h, d);
    ReachMono(g, h, {}, Succ(g, d), Succ(h, d));
  }

  lemma LiftWitnessed(score: Rates, own: Rates, package: Rates, g: Edges, h: Edges, lifted: set<Id>, id: Id, rate: nat, rate': nat)
    requires Witnessed(score, own, package, g) && id !in score && id !in package
    requires lifted <= Ancestors(h, id)
    requires forall d :: Ancestors(g, d) <= Ancestors(h, d)
    ensures Witnessed(LiftedTo(score[id := rate], lifted, rate'), own[id := rate], package[id := rate'], h)
  {
    var s, k := LiftedTo(score[id := rate], lifted, rate'), package[id := rate'];
    forall b | b in s && s[b] != own[id := rate][b]
      ensures exists d :: Witness(s, k, h, b, d)
    {
      if b in lifted {
        assert Witness(s, k, h, b, id);
      } else {
        var d :| Witness(score, package, g, b, d);
        assert Ancestors(g, d) <= Ancestors(h, d);
        assert Witness(s, k, h, b, d);
      }
    }
  }

  lemma AdmitWitnessed(p: Pool, item: Item)
    requires item.id !in p.items && item.descendantScore == item.fpc && ScoresWitnessed(p)
    ensures ScoresWitnessed(Admit(p, item))
  {
    var q := Insert(p, item);
    var lifted := Lifted(q.items, q.dependencies, item.id);
    AdmitRates(p, item);
    LiftedAreAncestors(q.items, q.dependencies, item.id);
    forall d ensures Ancestors(p.dependencies, d) <= Ancestors(q.dependencies, d) {
      InsertAncestors(p.dependencies, item.dependsOn, item.id, d);
    }
    LiftWitnessed(ScoreOf(p.items), OwnOf(p.items), PackageOf(p.items), p.dependencies, q.dependencies, lifted,
                  item.id, item.fpc, item.packageFpc);
  }

  // ── Whose score is lifted ──

  /** A walk up from a parent of `id` to `a` through active items that all score below `rate`. */
  ghost predicate LowPath(p: Pool, id: Id, a: Id, rate: nat, xs: seq<Id>) {
    && Walk(p.dependencies, xs) && xs[0] in Succ(p.dependencies, id) && xs[|xs| - 1] == a
    && forall i :: 0 <= i < |xs| ==> xs[i] in p.items && p.items[xs[i]].descendantScore < rate
  }

  lemma {:induction false} WalkInNodes(g: Edges, xs: seq<Id>, i: nat)
    requires Walk(g, xs) && xs[0] in Nodes(g) && i < |xs|
    ensures xs[i] in Nodes(g)
  {
    if i > 0 {
      assert xs[i - 1 + 1] in Succ(g, xs[i - 1]);
      SuccInNodes(g, xs[i - 1]);
    }
  }

  /** Such a walk lifts an ancestor to exactly the newcomer's package rate; without one its score stays. */
  lemma RaiseMeans(p: Pool, id: Id, a: Id)
    requires id in p.items && a in p.items
    ensures a in Raise(p, id).items
    ensures Raise(p, id).items[a].descendantScore ==
      if exists xs :: LowPath(p, id, a, p.items[id].packageFpc, xs) then p.items[id].packageFpc else p.items[a].descendantScore
  {
    var g, rate := p.dependencies, p.items[id].packageFpc;
    var avoid, roots := Blocking(p.items, g, rate), Succ(g, id);
    SuccInNodes(g, id);
    ReachIffWalk(g, avoid, roots, a);
    forall xs ensures LowPath(p, id, a, rate, xs) <==> Leads(g, avoid, roots, a, xs) {
      if Walk(g, xs) && xs[0] in roots {
        forall i | 0 <= i < |xs| ensures xs[i] in Nodes(g) { WalkInNodes(g, xs, i); }
      }
    }
  }

  // ── The documented maximum, and exactly when an insertion keeps it ──

  /** Every score covers the package rate of every transitive descendant. */
  ghost predicate CoversDescendants(score: Rates, package: Rates, deps: Edges) {
    forall a, d :: a in score && d in package && a in Ancestors(deps, d) ==> package[d] <= score[a]
  }

  ghost predicate DescendantsCovered(p: Pool) {
    CoversDescendants(ScoreOf(p.items), PackageOf(p.items), p.dependencies)
  }

  /** The newcomer's ancestors, and the ones its walk would lift, as seen before it is inserted. */
  ghost function AncestorsOf(p: Pool, item: Item): set<Id> { Reach(p.dependencies, {}, item.dependsOn) }

  ghost function WouldLift(p: Pool, item: Item): set<Id> {
    Reach(p.dependencies, Blocking(p.items, p.dependencies, item.packageFpc), item.dependsOn)
  }

  /** No ancestor that scores below the newcomer's package rate hides behind one that does not. */
  ghost predicate NothingHidden(p: Pool, item: Item) {
    forall a :: a in p.items && a in AncestorsOf(p, item) && ScoreOf(p.items)[a] < item.packageFpc
      ==> a in WouldLift(p, item)
  }

  lemma ActiveParents(p: Pool)
    requires Edged(p) && NoOrphans(p.items)
    ensures forall x :: x in p.items ==> Succ(p.dependencies, x) <= p.items.Keys
  {
    forall x | x in p.items ensures Succ(p.dependencies, x) <= p.items.Keys { SuccDependencies(p, x); }
  }

  /** Edges out of a node nobody inside `universe` names change nothing reachable from inside. */
  lemma ReachUnder(g: Edges, parents: set<Id>, id: Id, avoid: set<Id>, roots: set<Id>, universe: set<Id>)
    requires id !in universe && roots <= universe && forall x :: x in universe ==> Succ(g, x) <= universe
    ensures Reach(JoinParents(g, parents, id), avoid, roots) == Reach(g, avoid, roots) <= universe
  {
    var h := JoinParents(g, parents, id);
    ReachLeast(g, avoid, roots, universe);
    ReachCovers(g, avoid, roots);
    forall x | x in universe ensures Succ(h, x) == Succ(g, x) {}
    ReachLeast(h, avoid, roots, Reach(g, avoid, roots));
    forall x ensures Succ(g, x) <= Succ(h, x) {}
    ReachCovers(h, avoid, roots);
    ReachMono(g, h, avoid, roots, roots);
  }

  /** What is avoided outside the reachable part makes no difference. */
  lemma ReachSameAvoid(g: Edges, a: set<Id>, b: set<Id>, roots: set<Id>, universe: set<Id>)
    requires roots <= universe && forall x :: x in universe ==> Succ(g, x) <= universe
    requires a * universe == b * universe
    ensures Reach(g, a, roots) == Reach(g, b, roots)
  {
    ReachWithin(g, a, b, roots, universe);
    ReachWithin(g, b, a, roots, universe);
  }

  lemma ReachWithin(g: Edges, a: set<Id>, b: set<Id>, roots: set<Id>, universe: set<Id>)
    requires roots <= universe && forall x :: x in universe ==> Succ(g, x) <= universe
    requires a * universe == b * universe
    ensures Reach(g, a, roots) <= Reach(g, b, roots)
  {
    ReachCovers(g, b, roots);
    var t := Reach(g, b, roots) * universe;
    assert forall x :: x in universe ==> (x in a <==> x in a * universe) && (x in b <==> x in b * universe);
    forall x | x in t ensures Succ(g, x) - a <= t { assert Succ(g, x) - b <= Reach(g, b, roots); }
    ReachLeast(g, a, roots, t);
  }

  ghost predicate Adoptable(p: Pool, item: Item) {
    Edged(p) && NoOrphans(p.items) && item.id !in p.items && item.dependsOn <= p.items.Keys
  }

  lemma AdmitAncestors(p: Pool, item: Item, d: Id)
    requires Adoptable(p, item)
    ensures Ancestors(Insert(p, item).dependencies, item.id) == AncestorsOf(p, item) <= p.items.Keys
    ensures d in p.items ==> Ancestors(Insert(p, item).dependencies, d) == Ancestors(p.dependencies, d) <= p.items.Keys
  {
    var g := p.dependencies;
    ActiveParents(p);
    SuccDependencies(p, item.id);
    assert Succ(JoinParents(g, item.dependsOn, item.id), item.id) == item.dependsOn;
    ReachUnder(g, item.dependsOn, item.id, {}, item.dependsOn, p.items.Keys);
    if d in p.items {
      ReachUnder(g, item.dependsOn, item.id, {}, Succ(g, d), p.items.Keys);
    }
  }

  lemma AdmitLifts(p: Pool, item: Item)
    requires Adoptable(p, item)
    ensures Lifted(Insert(p, item).items, Insert(p, item).dependencies, item.id) == WouldLift(p, item)
  {
    var q := Insert(p, item);
    var a := Blocking(q.items, q.dependencies, item.packageFpc);
    ActiveParents(p);
    SuccDependencies(p, item.id);
    assert Succ(q.dependencies, item.id) == item.dependsOn;
    ReachUnder(p.dependencies, item.dependsOn, item.id, a, item.dependsOn, p.items.Keys);
    BlockingSame(p, item);
    ReachSameAvoid(p.dependencies, a, Blocking(p.items, p.dependencies, item.packageFpc), item.dependsOn, p.items.Keys);
  }

  lemma BlockingSame(p: Pool, item: Item)
    requires item.id !in p.items
    ensures Blocking(Insert(p, item).items, Insert(p, item).dependencies, item.packageFpc) * p.items.Keys
         == Blocking(p.items, p.dependencies, item.packageFpc) * p.items.Keys
  {
  }

  /** The documented maximum survives an insertion if and only if nothing is hidden from its walk. */
  lemma DescendantsCoveredIff(p: Pool, item: Item)
    requires Adoptable(p, item) && DescendantsCovered(p)
    ensures DescendantsCovered(Admit(p, item)) <==> NothingHidden(p, item)
  {
    AdmitRates(p, item);
    AdmitLifts(p, item);
    ReachCovers(p.dependencies, Blocking(p.items, p.dependencies, item.packageFpc), item.dependsOn);
    AdmitAncestors(p, item, item.id);
    forall d | d in p.items
      ensures Ancestors(Insert(p, item).dependencies, d) == Ancestors(p.dependencies, d) <= p.items.Keys
    {
      AdmitAncestors(p, item, d);
    }
    CoveredIff(ScoreOf(p.items), PackageOf(p.items), p.dependencies, Insert(p, item).dependencies,
               AncestorsOf(p, item), WouldLift(p, item), item.id, item.descendantScore, item.packageFpc);
  }

  lemma CoveredIff(score: Rates, package: Rates, g: Edges, h: Edges, above: set<Id>, lifted: set<Id>, id: Id, own: nat, rate: nat)
    requires CoversDescendants(score, package, g) && score.Keys == package.Keys && id !in score
    requires forall b :: b in score && b in lifted ==> score[b] < rate
    requires Ancestors(h, id) == above <= score.Keys
    requires forall d :: d in score ==> Ancestors(h, d) == Ancestors(g, d) <= score.Keys
    ensures CoversDescendants(LiftedTo(score[id := own], lifted, rate), package[id := rate], h)
       <==> forall a :: a in score && a in above && score[a] < rate ==> a in lifted
  {
    var s, k := LiftedTo(score[id := own], lifted, rate), package[id := rate];
    if forall a :: a in score && a in above && score[a] < rate ==> a in lifted {
      CoveredWhen(score, package, g, h, above, lifted, id, own, rate);
    }
    if CoversDescendants(s, k, h) {
      forall a | a in score && a in above && score[a] < rate ensures a in lifted {
        assert a in Ancestors(h, id) && k[id] <= s[a];
      }
    }
  }

  lemma CoveredWhen(score: Rates, package: Rates, g: Edges, h: Edges, above: set<Id>, lifted: set<Id>, id: Id, own: nat, rate: nat)
    requires CoversDescendants(score, package, g) && score.Keys == package.Keys && id !in score
    requires forall b :: b in score && b in lifted ==> score[b] < rate
    requires Ancestors(h, id) == above <= score.Keys
    requires forall d :: d in score ==> Ancestors(h, d) == Ancestors(g, d) <= score.Keys
    requires forall a :: a in score && a in above && score[a] < rate ==> a in lifted
    ensures CoversDescendants(LiftedTo(score[id := own], lifted, rate), package[id := rate], h)
  {
    var s, k := LiftedTo(score[id := own], lifted, rate), package[id := rate];
    forall a, d | a in s && d in k && a in Ancestors(h, d) ensures k[d] <= s[a] {
      if d == id {
        assert a in above && a in score;
      } else {
        assert a in Ancestors(g, d) && a in score;
      }
    }
  }
}
