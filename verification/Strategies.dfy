/** Greedy block packing (src/selection/strategies.rs). */
module Strategies {
  import opened Prelude
  import opened Items
  import opened Sums
  import opened Graph
  import opened Sorting
  import opened PoolInvariants
  import opened Rbf

  datatype Strategy = Density | Whale | Compact | Age

  /** A descending comparison. */
  function Desc(x: int): int { -x }

  /** The chained comparison of each strategy; every chain ends in the unique bundle id. */
  function SortKey(s: Strategy, i: Item): Key {
    match s
    case Density => [Desc(i.packageFpc), Desc(i.fee), i.virtualCost, i.heightAdded, i.id]
    case Whale => [Desc(i.packageFee), Desc(i.packageFpc), i.virtualCost, i.heightAdded, i.id]
    case Compact => [Desc(i.packageFpc), i.virtualCost, Desc(i.fee), i.heightAdded, i.id]
    case Age => [i.heightAdded, Desc(i.packageFpc), Desc(i.fee), i.id]
  }

  ghost function SortKeys(s: Strategy, items: map<Id, Item>): map<Id, Key> {
    map b | b in items :: SortKey(s, items[b])
  }

  lemma SortKeyTellsApart(s: Strategy, a: Item, b: Item)
    requires SortKey(s, a) == SortKey(s, b)
    ensures a.id == b.id
  {
    var ka, kb := SortKey(s, a), SortKey(s, b);
    assert ka[|ka| - 1] == kb[|kb| - 1];
  }

  /** The candidates in the strategy's order; there is only one such list. */
  ghost predicate InOrder(s: Strategy, items: map<Id, Item>, cands: set<Id>, xs: seq<Id>) {
    NoDup(xs) && Elems(xs) == cands && SortedBy(SortKeys(s, items), xs)
  }

  lemma OneOrder(s: Strategy, items: map<Id, Item>, cands: set<Id>, xs: seq<Id>, ys: seq<Id>)
    requires Keyed(items) && cands <= items.Keys
    requires InOrder(s, items, cands, xs) && InOrder(s, items, cands, ys)
    ensures xs == ys
  {
    forall a, b | a in Elems(xs) && b in Elems(xs) && SortKeys(s, items)[a] == SortKeys(s, items)[b]
      ensures a == b
    {
      SortKeyTellsApart(s, items[a], items[b]);
    }
    SortedUnique(SortKeys(s, items), xs, ys);
  }

  // ── What the orders mean, field by field ──

  lemma OrderedPair(s: Strategy, items: map<Id, Item>, cands: set<Id>, xs: seq<Id>, i: nat, j: nat)
    requires Keyed(items) && cands <= items.Keys && InOrder(s, items, cands, xs) && i < j < |xs|
    ensures xs[i] in items && xs[j] in items && items[xs[i]].id != items[xs[j]].id
    ensures AtMost(SortKey(s, items[xs[i]]), SortKey(s, items[xs[j]]))
  {
    assert xs[i] in Elems(xs) && xs[j] in Elems(xs);
  }

  /** Higher package rate; then higher fee, lower virtual cost, earlier arrival, smaller id. */
  lemma DensityOrder(items: map<Id, Item>, cands: set<Id>, xs: seq<Id>, i: nat, j: nat)
    requires Keyed(items) && cands <= items.Keys && InOrder(Density, items, cands, xs) && i < j < |xs|
    ensures xs[i] in items && xs[j] in items
    ensures var a, b := items[xs[i]], items[xs[j]];
      || a.packageFpc > b.packageFpc
      || (a.packageFpc == b.packageFpc && a.fee > b.fee)
      || (a.packageFpc == b.packageFpc && a.fee == b.fee && a.virtualCost < b.virtualCost)
      || (a.packageFpc == b.packageFpc && a.fee == b.fee && a.virtualCost == b.virtualCost && a.heightAdded < b.heightAdded)
      || (a.packageFpc == b.packageFpc && a.fee == b.fee && a.virtualCost == b.virtualCost && a.heightAdded == b.heightAdded
          && a.id < b.id)
  {
    OrderedPair(Density, items, cands, xs, i, j);
    LessFive(SortKey(Density, items[xs[j]]), SortKey(Density, items[xs[i]]));
  }

  /** Higher package fee; then higher package rate, lower virtual cost, earlier arrival, smaller id. */
  lemma WhaleOrder(items: map<Id, Item>, cands: set<Id>, xs: seq<Id>, i: nat, j: nat)
    requires Keyed(items) && cands <= items.Keys && InOrder(Whale, items, cands, xs) && i < j < |xs|
    ensures xs[i] in items && xs[j] in items
    ensures var a, b := items[xs[i]], items[xs[j]];
      || a.packageFee > b.packageFee
      || (a.packageFee == b.packageFee && a.packageFpc > b.packageFpc)
      || (a.packageFee == b.packageFee && a.packageFpc == b.packageFpc && a.virtualCost < b.virtualCost)
      || (a.packageFee == b.packageFee && a.packageFpc == b.packageFpc && a.virtualCost == b.virtualCost && a.heightAdded < b.heightAdded)
      || (a.packageFee == b.packageFee && a.packageFpc == b.packageFpc && a.virtualCost == b.virtualCost && a.heightAdded == b.heightAdded
          && a.id < b.id)
  {
    OrderedPair(Whale, items, cands, xs, i, j);
    LessFive(SortKey(Whale, items[xs[j]]), SortKey(Whale, items[xs[i]]));
  }

  /** Higher package rate; then lower virtual cost, higher fee, earlier arrival, smaller id. */
  lemma CompactOrder(items: map<Id, Item>, cands: set<Id>, xs: seq<Id>, i: nat, j: nat)
    requires Keyed(items) && cands <= items.Keys && InOrder(Compact, items, cands, xs) && i < j < |xs|
    ensures xs[i] in items && xs[j] in items
    ensures var a, b := items[xs[i]], items[xs[j]];
      || a.packageFpc > b.packageFpc
      || (a.packageFpc == b.packageFpc && a.virtualCost < b.virtualCost)
      || (a.packageFpc == b.packageFpc && a.virtualCost == b.virtualCost && a.fee > b.fee)
      || (a.packageFpc == b.packageFpc && a.virtualCost == b.virtualCost && a.fee == b.fee && a.heightAdded < b.heightAdded)
      || (a.packageFpc == b.packageFpc && a.virtualCost == b.virtualCost && a.fee == b.fee && a.heightAdded == b.heightAdded
          && a.id < b.id)
  {
    OrderedPair(Compact, items, cands, xs, i, j);
    LessFive(SortKey(Compact, items[xs[j]]), SortKey(Compact, items[xs[i]]));
  }

  /** Earlier arrival; then higher package rate, higher fee, smaller id. */
  lemma AgeOrder(items: map<Id, Item>, cands: set<Id>, xs: seq<Id>, i: nat, j: nat)
    requires Keyed(items) && cands <= items.Keys && InOrder(Age, items, cands, xs) && i < j < |xs|
    ensures xs[i] in items && xs[j] in items
    ensures var a, b := items[xs[i]], items[xs[j]];
      || a.heightAdded < b.heightAdded
      || (a.heightAdded == b.heightAdded && a.packageFpc > b.packageFpc)
      || (a.heightAdded == b.heightAdded && a.packageFpc == b.packageFpc && a.fee > b.fee)
      || (a.heightAdded == b.heightAdded && a.packageFpc == b.packageFpc && a.fee == b.fee && a.id < b.id)
  {
    OrderedPair(Age, items, cands, xs, i, j);
    LessFour(SortKey(Age, items[xs[j]]), SortKey(Age, items[xs[i]]));
  }

  method SelSort(s: Strategy, items: map<Id, Item>, cands: set<Id>) returns (xs: seq<Id>)
    requires cands <= items.Keys
    ensures InOrder(s, items, cands, xs)
  {
    var keys: map<Id, Key> := map b | b in items :: SortKey(s, items[b]);
    assert keys == SortKeys(s, items);
    var listed := Enumerate(cands);
    xs := SortBy(keys, listed);
  }

  // ── Ancestors and chain successors not yet selected ──

  /** All unselected ancestors, in visiting order, each once. */
  method CollectAncestors(id: Id, deps: Edges, selected: set<Id>) returns (found: seq<Id>)
    ensures NoDup(found) && Elems(found) == Reach(deps, selected, Succ(deps, id))
  {
    ghost var roots := Succ(deps, id);
    var stack := Enumerate(Succ(deps, id));
    var visited: set<Id> := {};
    found := [];
    ElemsEmpty(found);
    ExploreStart(deps, selected, roots, stack);
    while stack != []
      invariant Exploring(deps, selected, roots, visited, stack)
      invariant Elems(found) == visited && NoDup(found)
      decreases roots + Nodes(deps) - visited, |stack|
    {
      var a := stack[|stack| - 1];
      if a in selected || a in visited {
        ExploreSkip(deps, selected, roots, visited, stack);
        stack := stack[..|stack| - 1];
      } else {
        var parents := Enumerate(Succ(deps, a));
        ExploreVisit(deps, selected, roots, visited, stack, parents);
        ElemsAppend(found, a);
        assert a !in found by { assert a !in Elems(found); }
        found := found + [a];
        visited := visited + {a};
        stack := stack[..|stack| - 1] + parents;
      }
    }
    ExploreDone(deps, selected, roots, visited);
  }

  /** What follows `id` in its chain. */
  function After(chain: seq<Id>, id: Id): seq<Id> {
    if chain == [] then [] else if chain[0] == id then chain[1..] else After(chain[1..], id)
  }

  function ChainAfter(items: map<Id, Item>, chains: map<Id, seq<Id>>, id: Id): seq<Id>
    requires id in items
  {
    var l := items[id].launcher;
    if l.Some? && l.value in chains then After(chains[l.value], id) else []
  }

  lemma {:induction false} AfterFacts(chain: seq<Id>, id: Id)
    ensures NoDup(chain) ==> NoDup(After(chain, id)) && id !in After(chain, id)
    ensures forall x :: x in After(chain, id) ==> x in chain
    ensures forall x :: x in After(chain, id) ==>
      exists j :: 0 < j < |chain| && chain[j] == x && (chain[j - 1] == id || chain[j - 1] in After(chain, id))
  {
    if chain != [] {
      AfterFacts(chain[1..], id);
      forall x | x in After(chain, id)
        ensures exists j :: 0 < j < |chain| && chain[j] == x && (chain[j - 1] == id || chain[j - 1] in After(chain, id))
      {
        if chain[0] == id {
          var k :| 0 <= k < |chain[1..]| && chain[1..][k] == x;
          assert chain[k + 1] == x && (k > 0 ==> chain[1..][k - 1] == chain[k]);
        } else {
          var k :| 0 < k < |chain[1..]| && chain[1..][k] == x
                   && (chain[1..][k - 1] == id || chain[1..][k - 1] in After(chain[1..], id));
          assert chain[k + 1] == x && chain[k] == chain[1..][k - 1];
        }
      }
    }
  }

  /** What follows the `j`-th member of a chain is the rest of the chain; nothing follows a stranger. */
  lemma {:induction false} AfterIs(chain: seq<Id>, j: nat)
    requires NoDup(chain) && j < |chain|
    ensures After(chain, chain[j]) == chain[j + 1..]
  {
    if j > 0 {
      assert chain[1..][j - 1] == chain[j] && chain[0] != chain[j];
      forall a, b | 0 <= a < b < |chain[1..]| ensures chain[1..][a] != chain[1..][b] {
        assert chain[1..][a] == chain[a + 1] && chain[1..][b] == chain[b + 1];
      }
      AfterIs(chain[1..], j - 1);
      assert chain[1..][j..] == chain[j + 1..];
    }
  }

  lemma {:induction false} AfterNone(chain: seq<Id>, id: Id)
    requires id !in chain
    ensures After(chain, id) == []
  {
    if chain != [] {
      assert chain[0] != id;
      AfterNone(chain[1..], id);
    }
  }

  // ── One packing pass as a fold ──

  /** What a pass works on. */
  datatype Template = Template(items: map<Id, Item>, deps: Edges, chains: map<Id, seq<Id>>, cands: set<Id>,
                               maxCost: U64, maxSpends: U64)

  datatype Packed = Packed(ids: set<Id>, spent: set<CoinId>, cost: U64, fees: U64, spends: U64)

  const EMPTY_BLOCK: Packed := Packed({}, {}, 0, 0, 0)

  /** Candidates are active, no list is ambiguous, and the pool's own totals fit their types. */
  ghost predicate Usable(t: Template) {
    && t.cands <= t.items.Keys
    && (forall l :: l in t.chains ==> NoDup(t.chains[l]))
    && Total(Costs(t.items)) <= U64_MAX && Total(Spends(t.items)) <= U64_MAX
    && Acyclic(t.deps)
  }

  ghost function NewAncestors(t: Template, sel: set<Id>, id: Id): set<Id> { Reach(t.deps, sel, Succ(t.deps, id)) }

  ghost function NewSuccessors(t: Template, sel: set<Id>, id: Id): set<Id>
    requires id in t.items
  {
    Elems(ChainAfter(t.items, t.chains, id)) * t.cands - sel
  }

  ghost function Batch(t: Template, sel: set<Id>, id: Id): set<Id>
    requires id in t.items
  {
    {id} + NewAncestors(t, sel, id) + NewSuccessors(t, sel, id)
  }

  ghost function SpentBy(own: map<Id, set<CoinId>>, ids: set<Id>): set<CoinId> {
    set b, c | b in ids && b in own && c in own[b] :: c
  }

  /** The three parts of a batch added up one after the other, as the code does. */
  ghost function Added(m: map<Id, nat>, id: Id, ancs: set<Id>, succs: set<Id>): nat
    requires id in m && ancs <= m.Keys && succs <= m.Keys
  {
    m[id] + Sum(m, ancs) + Sum(m, succs)
  }

  ghost predicate Taken(t: Template, st: Packed, id: Id)
    requires t.cands <= t.items.Keys && id in t.items
  {
    var ancs, succs := NewAncestors(t, st.ids, id), NewSuccessors(t, st.ids, id);
    && id !in st.ids
    && ancs <= t.cands
    && SatAdd(st.cost, Added(Costs(t.items), id, ancs, succs)) <= t.maxCost
    && SatAdd(st.spends, Wrap(Added(Spends(t.items), id, ancs, succs))) <= t.maxSpends
    && SpentBy(Removals(t.items), Batch(t, st.ids, id)) !! st.spent
  }

  ghost function PackStep(t: Template, st: Packed, id: Id): Packed
    requires t.cands <= t.items.Keys && id in t.items
  {
    if !Taken(t, st, id) then st else
      var ancs, succs := NewAncestors(t, st.ids, id), NewSuccessors(t, st.ids, id);
      Packed(st.ids + Batch(t, st.ids, id),
             st.spent + SpentBy(Removals(t.items), Batch(t, st.ids, id)),
             SatAdd(st.cost, Added(Costs(t.items), id, ancs, succs)),
             SatAdd(st.fees, Added(Fees(t.items), id, ancs, succs)),
             SatAdd(st.spends, Added(Spends(t.items), id, ancs, succs)))
  }

  /** The state after the first `n` candidates in the given order. */
  ghost function Pack(t: Template, xs: seq<Id>, n: nat): Packed
    requires t.cands <= t.items.Keys && Elems(xs) <= t.cands && n <= |xs|
  {
    if n == 0 then EMPTY_BLOCK else
      assert xs[n - 1] in Elems(xs);
      PackStep(t, Pack(t, xs, n - 1), xs[n - 1])
  }

  /** The unselected candidates that were admitted after `id` under the same launcher, and nobody else. */
  lemma SuccessorsAre(t: Template, sel: set<Id>, id: Id, l: Id, j: nat)
    requires Usable(t) && id in t.items && t.items[id].launcher == Some(l) && l in t.chains && j < |t.chains[l]| && t.chains[l][j] == id
    ensures NewSuccessors(t, sel, id) == set k | j < k < |t.chains[l]| && t.chains[l][k] in t.cands && t.chains[l][k] !in sel :: t.chains[l][k]
  {
    var chain := t.chains[l];
    AfterIs(chain, j);
    var rest := set k | j < k < |chain| && chain[k] in t.cands && chain[k] !in sel :: chain[k];
    forall x ensures x in NewSuccessors(t, sel, id) <==> x in rest {
      if x in Elems(chain[j + 1..]) && x in t.cands && x !in sel {
        var m :| 0 <= m < |chain[j + 1..]| && chain[j + 1..][m] == x;
        assert chain[j + 1 + m] == x;
      }
      if x in rest {
        var k :| j < k < |chain| && chain[k] in t.cands && chain[k] !in sel && chain[k] == x;
        assert chain[j + 1..][k - j - 1] == x;
      }
    }
  }

  /** Whoever has no launcher, or is in no chain, pulls nobody along. */
  lemma NoSuccessorsFor(t: Template, sel: set<Id>, id: Id)
    requires id in t.items
    requires t.items[id].launcher.None? || t.items[id].launcher.value !in t.chains || id !in t.chains[t.items[id].launcher.value]
    ensures NewSuccessors(t, sel, id) == {}
  {
    ElemsEmpty<Id>([]);
    var l := t.items[id].launcher;
    if l.Some? && l.value in t.chains { AfterNone(t.chains[l.value], id); }
  }

  // ── The pass itself ──

  function Take(t: Template, st: Packed, id: Id): Packed
    requires id in t.items
  {
    var i := t.items[id];
    Packed(st.ids + {id}, st.spent + Elems(i.removals),
           SatAdd(st.cost, i.virtualCost), SatAdd(st.fees, i.fee), SatAdd(st.spends, i.numSpends))
  }

  /** Adds the listed items one by one. */
  method TakeAll(t: Template, before: Packed, ids: seq<Id>) returns (st: Packed)
    requires NoDup(ids) && Elems(ids) <= t.items.Keys
    ensures st == Packed(before.ids + Elems(ids), before.spent + SpentBy(Removals(t.items), Elems(ids)),
                         SatAdd(before.cost, Sum(Costs(t.items), Elems(ids))),
                         SatAdd(before.fees, Sum(Fees(t.items), Elems(ids))),
                         SatAdd(before.spends, Sum(Spends(t.items), Elems(ids))))
  {
    st := before;
    ghost var done: set<Id> := {};
    ElemsEmpty(ids[..0]);
    for i := 0 to |ids|
      invariant done == Elems(ids[..i]) && done <= t.items.Keys
      invariant st == AfterTaking(t, before, done)
    {
      NextElement(ids, i);
      TakeOne(t, before, done, ids[i]);
      st := Take(t, st, ids[i]);
      done := done + {ids[i]};
    }
    WholePrefix(ids);
  }

  lemma NextElement(ids: seq<Id>, i: nat)
    requires i < |ids| && NoDup(ids)
    ensures ids[i] in Elems(ids) && ids[i] !in Elems(ids[..i])
    ensures Elems(ids[..i + 1]) == Elems(ids[..i]) + {ids[i]}
  {
    PrefixElems(ids, i);
  }

  ghost function AfterTaking(t: Template, before: Packed, s: set<Id>): Packed
    requires s <= t.items.Keys
  {
    Packed(before.ids + s, before.spent + SpentBy(Removals(t.items), s),
           SatAdd(before.cost, Sum(Costs(t.items), s)), SatAdd(before.fees, Sum(Fees(t.items), s)),
           SatAdd(before.spends, Sum(Spends(t.items), s)))
  }

  lemma TakeOne(t: Template, before: Packed, s: set<Id>, id: Id)
    requires s <= t.items.Keys && id in t.items && id !in s
    ensures AfterTaking(t, before, s + {id}) == Take(t, AfterTaking(t, before, s), id)
  {
    SumPush(Costs(t.items), s, id);
    SumPush(Fees(t.items), s, id);
    SumPush(Spends(t.items), s, id);
    SpentOne(Removals(t.items), s, id);
  }

  lemma SpentOne(own: map<Id, set<CoinId>>, s: set<Id>, id: Id)
    requires id in own
    ensures SpentBy(own, s + {id}) == SpentBy(own, s) + own[id]
  {
  }

  lemma SpentUnion(own: map<Id, set<CoinId>>, a: set<Id>, b: set<Id>)
    ensures SpentBy(own, a + b) == SpentBy(own, a) + SpentBy(own, b)
  {
  }

  /** Does any coin of the listed items clash with `spent`? */
  method Clashes(t: Template, ids: seq<Id>, spent: set<CoinId>) returns (r: bool)
    requires Elems(ids) <= t.items.Keys
    ensures r <==> !(SpentBy(Removals(t.items), Elems(ids)) !! spent)
  {
    r := false;
    ElemsEmpty(ids[..0]);
    for i := 0 to |ids|
      invariant Elems(ids[..i]) <= t.items.Keys
      invariant r <==> !(SpentBy(Removals(t.items), Elems(ids[..i])) !! spent)
    {
      assert ids[i] in Elems(ids);
      assert ids[..i + 1] == ids[..i] + [ids[i]];
      ElemsAppend(ids[..i], ids[i]);
      SpentOne(Removals(t.items), Elems(ids[..i]), ids[i]);
      var coins := set c | c in t.items[ids[i]].removals;
      assert coins == Elems(t.items[ids[i]].removals) == Removals(t.items)[ids[i]];
      if coins !! spent {} else { r := true; }
    }
    assert ids[..|ids|] == ids;
  }

  /** The chain successors that are candidates and not selected yet. */
  method CollectSuccessors(t: Template, sel: set<Id>, id: Id) returns (found: seq<Id>)
    requires Usable(t) && id in t.items
    ensures NoDup(found) && Elems(found) == NewSuccessors(t, sel, id)
  {
    var rest := ChainAfter(t.items, t.chains, id);
    if t.items[id].launcher.Some? && t.items[id].launcher.value in t.chains {
      AfterFacts(t.chains[t.items[id].launcher.value], id);
    }
    found := [];
    ElemsEmpty(found);
    for i := 0 to |rest|
      invariant NoDup(found) && Elems(found) == Elems(rest[..i]) * t.cands - sel
    {
      assert rest[..i + 1] == rest[..i] + [rest[i]];
      ElemsAppend(rest[..i], rest[i]);
      assert rest[i] !in Elems(rest[..i]);
      if rest[i] in t.cands && rest[i] !in sel {
        ElemsAppend(found, rest[i]);
        assert rest[i] !in Elems(found);
        found := found + [rest[i]];
      }
    }
    assert rest[..|rest|] == rest;
  }

  /** A sum over part of the pool fits: wrapping never happens. */
  method PartSum(m: map<Id, nat>, ids: seq<Id>) returns (r: U64)
    requires NoDup(ids) && Elems(ids) <= m.Keys && Total(m) <= U64_MAX
    ensures r == Sum(m, Elems(ids))
  {
    SumMono(m, Elems(ids), m.Keys);
    r := WrappedSum(m, ids);
  }

  /** Cost, fees and spend count of a batch as the pass computes them before deciding. */
  method Weigh(t: Template, id: Id, ancs: seq<Id>, succs: seq<Id>) returns (cost: U64, spends: U64)
    requires Usable(t) && id in t.items && NoDup(ancs) && NoDup(succs)
    requires Elems(ancs) <= t.items.Keys && Elems(succs) <= t.items.Keys
    ensures cost == SatAdd(0, Added(Costs(t.items), id, Elems(ancs), Elems(succs)))
    ensures spends == Wrap(Added(Spends(t.items), id, Elems(ancs), Elems(succs)))
  {
    var costOf: map<Id, nat> := map b | b in t.items :: t.items[b].virtualCost;
    var spendsOf: map<Id, nat> := map b | b in t.items :: t.items[b].numSpends;
    assert costOf == Costs(t.items) && spendsOf == Spends(t.items);
    var a := PartSum(costOf, ancs);
    var s := PartSum(costOf, succs);
    cost := SatAdd(SatAdd(t.items[id].virtualCost, a), s);
    a := PartSum(spendsOf, ancs);
    s := PartSum(spendsOf, succs);
    spends := Wrap(t.items[id].numSpends + a + s);
  }

  /** The body of the packing loop. */
  method Consider(t: Template, st: Packed, id: Id) returns (r: Packed)
    requires Usable(t) && id in t.cands
    ensures r == PackStep(t, st, id)
  {
    if id in st.ids { return st; }
    var ancs := CollectAncestors(id, t.deps, st.ids);
    if exists a :: a in ancs && a !in t.cands {
      var a :| a in ancs && a !in t.cands;
      assert a in Elems(ancs);
      return st;
    }
    assert Elems(ancs) <= t.cands;
    var succs := CollectSuccessors(t, st.ids, id);
    var cost, spends := Weigh(t, id, ancs, succs);
    if SatAdd(st.cost, cost) > t.maxCost || SatAdd(st.spends, spends) > t.maxSpends { return st; }
    BatchElems(t, st.ids, id, ancs, succs);
    var clash := Clashes(t, [id] + ancs + succs, st.spent);
    if clash { return st; }
    r := Accept(t, st, id, ancs, succs);
  }

  /** Ancestors first, then the item, then its chain successors. */
  method Accept(t: Template, st: Packed, id: Id, ancs: seq<Id>, succs: seq<Id>) returns (r: Packed)
    requires id in t.items && NoDup(ancs) && NoDup(succs)
    requires Elems(ancs) <= t.items.Keys && Elems(succs) <= t.items.Keys
    ensures var batch := {id} + Elems(ancs) + Elems(succs);
      r == Packed(st.ids + batch, st.spent + SpentBy(Removals(t.items), batch),
                  SatAdd(st.cost, Added(Costs(t.items), id, Elems(ancs), Elems(succs))),
                  SatAdd(st.fees, Added(Fees(t.items), id, Elems(ancs), Elems(succs))),
                  SatAdd(st.spends, Added(Spends(t.items), id, Elems(ancs), Elems(succs))))
  {
    r := TakeAll(t, st, ancs);
    r := Take(t, r, id);
    r := TakeAll(t, r, succs);
    TakenInParts(t, st, id, Elems(ancs), Elems(succs));
  }

  /** Taking the three parts one after the other adds up to taking the batch. */
  lemma TakenInParts(t: Template, st: Packed, id: Id, ancs: set<Id>, succs: set<Id>)
    requires id in t.items && ancs <= t.items.Keys && succs <= t.items.Keys
    ensures var r := AfterTaking(t, Take(t, AfterTaking(t, st, ancs), id), succs);
      && r.ids == st.ids + ({id} + ancs + succs) && r.spent == st.spent + SpentBy(Removals(t.items), {id} + ancs + succs)
      && r.cost == SatAdd(st.cost, Added(Costs(t.items), id, ancs, succs))
      && r.fees == SatAdd(st.fees, Added(Fees(t.items), id, ancs, succs))
      && r.spends == SatAdd(st.spends, Added(Spends(t.items), id, ancs, succs))
  {
    var i := t.items[id];
    SpentParts(Removals(t.items), id, ancs, succs);
    SatAddParts(st.cost, Sum(Costs(t.items), ancs), i.virtualCost, Sum(Costs(t.items), succs));
    SatAddParts(st.fees, Sum(Fees(t.items), ancs), i.fee, Sum(Fees(t.items), succs));
    SatAddParts(st.spends, Sum(Spends(t.items), ancs), i.numSpends, Sum(Spends(t.items), succs));
    SetParts(st.ids, id, ancs, succs);
  }

  lemma SatAddParts(a: nat, b: nat, c: nat, d: nat)
    ensures SatAdd(SatAdd(SatAdd(a, b), c), d) == SatAdd(a, c + b + d)
  {
  }

  lemma SetParts(a: set<Id>, id: Id, b: set<Id>, c: set<Id>)
    ensures a + b + {id} + c == a + ({id} + b + c)
  {
  }

  lemma BatchElems(t: Template, sel: set<Id>, id: Id, ancs: seq<Id>, succs: seq<Id>)
    requires id in t.items && Elems(ancs) == NewAncestors(t, sel, id) && Elems(succs) == NewSuccessors(t, sel, id)
    ensures Elems([id] + ancs + succs) == Batch(t, sel, id)
  {
    ElemsConcat([id], ancs);
    ElemsConcat([id] + ancs, succs);
  }

  lemma SpentParts(own: map<Id, set<CoinId>>, id: Id, ancs: set<Id>, succs: set<Id>)
    requires id in own
    ensures SpentBy(own, {id} + ancs + succs) == SpentBy(own, ancs) + own[id] + SpentBy(own, succs)
  {
  }

  /** The outcome of the pass that considers the candidates in the strategy's order. */
  ghost predicate IsPass(t: Template, s: Strategy, best: Packed)
    requires t.cands <= t.items.Keys
  {
    exists xs :: InOrder(s, t.items, t.cands, xs) && best == Pack(t, xs, |xs|)
  }

  /** One pass: sort, then consider every candidate once. */
  method SelGreedy(t: Template, s: Strategy) returns (best: Packed, ghost xs: seq<Id>)
    requires Usable(t)
    ensures InOrder(s, t.items, t.cands, xs) && best == Pack(t, xs, |xs|)
    ensures IsPass(t, s, best)
  {
    var sorted := SelSort(s, t.items, t.cands);
    xs := sorted;
    best := EMPTY_BLOCK;
    for i := 0 to |sorted|
      invariant best == Pack(t, sorted, i)
    {
      assert sorted[i] in Elems(sorted);
      best := Consider(t, best, sorted[i]);
    }
  }

  // ── Best of four ──

  /** More fees, then less cost, then fewer bundles. */
  function Merit(b: Packed): Key { [Desc(b.fees), b.cost, |b.ids|] }

  predicate Beats(blocks: seq<Packed>, i: nat, j: nat)
    requires i < |blocks| && j < |blocks|
  {
    Less(Merit(blocks[i]), Merit(blocks[j]))
  }

  /** The first block that no other beats. */
  ghost predicate IsBest(blocks: seq<Packed>, k: nat) {
    && k < |blocks|
    && (forall j: nat :: j < |blocks| ==> !Beats(blocks, j, k))
    && (forall j: nat :: j < k ==> Beats(blocks, k, j))
  }

  /** More fees, or as many for less cost, or as many for as much cost from fewer bundles. */
  lemma BeatsMeans(blocks: seq<Packed>, i: nat, j: nat)
    requires i < |blocks| && j < |blocks|
    ensures Beats(blocks, i, j) <==> var a, b := blocks[i], blocks[j];
      || a.fees > b.fees
      || (a.fees == b.fees && a.cost < b.cost)
      || (a.fees == b.fees && a.cost == b.cost && |a.ids| < |b.ids|)
  {
    LessThree(Merit(blocks[i]), Merit(blocks[j]));
  }

  method SelBest(blocks: seq<Packed>) returns (k: nat)
    requires blocks != []
    ensures IsBest(blocks, k)
  {
    k := 0;
    LessTotal(Merit(blocks[0]), Merit(blocks[0]));
    for i := 1 to |blocks|
      invariant k < i
      invariant forall j :: 0 <= j < i ==> AtMost(Merit(blocks[k]), Merit(blocks[j]))
      invariant forall j :: 0 <= j < k ==> Less(Merit(blocks[k]), Merit(blocks[j]))
    {
      LessTotal(Merit(blocks[i]), Merit(blocks[k]));
      LessTotal(Merit(blocks[i]), Merit(blocks[i]));
      if Less(Merit(blocks[i]), Merit(blocks[k])) {
        forall j | 0 <= j < i ensures Less(Merit(blocks[i]), Merit(blocks[j])) {
          BelowTransitive(Merit(blocks[i]), Merit(blocks[k]), Merit(blocks[j]));
        }
        forall j | 0 <= j < i ensures AtMost(Merit(blocks[i]), Merit(blocks[j])) {
          LessTotal(Merit(blocks[i]), Merit(blocks[j]));
        }
        k := i;
      }
    }
  }

  lemma BelowTransitive(a: Key, b: Key, c: Key)
    requires Less(a, b) && AtMost(b, c)
    ensures Less(a, c)
  {
    LessTotal(b, c);
    if b != c { LessTransitive(a, b, c); }
  }

  lemma OneBest(blocks: seq<Packed>, j: nat, k: nat)
    requires IsBest(blocks, j) && IsBest(blocks, k)
    ensures j == k
  {
    var _ := Beats(blocks, j, k);
    var _ := Beats(blocks, k, j);
  }
}
