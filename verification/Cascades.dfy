/** What a cascade of evictions removes, and in which order. */
module Cascades {
  import opened Prelude
  import opened Graph
  import opened PoolState
  import opened PoolInvariants

  /** `b` together with everything that transitively depends on it, as far as it is active. */
  ghost function Subtree(p: Pool, b: Id): set<Id> {
    Reach(p.dependents, {}, {b}) * p.items.Keys
  }

  /** Every direct child comes strictly before its parent. */
  ghost predicate ChildrenFirst(g: Edges, ids: seq<Id>) {
    forall i :: 0 <= i < |ids| ==> Succ(g, ids[i]) <= Elems(ids[..i])
  }

  /** `ids` is exactly the active subtree of `b`, each id once, children before parents, `b` last. */
  ghost predicate CascadeOf(p: Pool, b: Id, ids: seq<Id>) {
    && NoDup(ids)
    && Elems(ids) == Subtree(p, b)
    && ChildrenFirst(p.dependents, ids)
    && (b in p.items ==> ids != [] && ids[|ids| - 1] == b)
  }

  /** Part-way: some of the subtrees below `b` are gone, each completely. */
  ghost predicate Cascading(p: Pool, b: Id, ids: seq<Id>) {
    && NoDup(ids)
    && Elems(ids) <= p.items.Keys
    && Elems(ids) <= Reach(p.dependents, {}, Succ(p.dependents, b))
    && ChildrenFirst(p.dependents, ids)
  }

  lemma NoDupConcat(xs: seq<Id>, ys: seq<Id>)
    requires NoDup(xs) && NoDup(ys) && Elems(xs) !! Elems(ys)
    ensures NoDup(xs + ys)
  {
    forall i, j | 0 <= i < j < |xs + ys| ensures (xs + ys)[i] != (xs + ys)[j] {
      if i < |xs| <= j {
        assert xs[i] in Elems(xs) && ys[j - |xs|] in Elems(ys);
      }
    }
  }

  lemma ChildrenFirstConcat(p: Pool, q: Pool, xs: seq<Id>, ys: seq<Id>)
    requires Edged(p) && q == RemoveSeq(p, xs) && Elems(ys) <= q.items.Keys
    requires ChildrenFirst(p.dependents, xs) && ChildrenFirst(q.dependents, ys)
    ensures ChildrenFirst(p.dependents, xs + ys)
  {
    var zs := xs + ys;
    forall i | 0 <= i < |zs| ensures Succ(p.dependents, zs[i]) <= Elems(zs[..i]) {
      if i < |xs| {
        assert zs[..i] == xs[..i];
      } else {
        var y := ys[i - |xs|];
        assert y in Elems(ys);
        assert zs[..i] == xs + ys[..i - |xs|];
        ElemsConcat(xs, ys[..i - |xs|]);
        RemoveSeqChildren(p, xs, y);
        RemoveSeqItems(p, xs);
        ChildrenActive(p, y);
      }
    }
  }

  /** One more child subtree. */
  lemma CascadeAppend(p: Pool, b: Id, xs: seq<Id>, c: Id, ys: seq<Id>)
    requires Edged(p) && Cascading(p, b, xs) && c in Succ(p.dependents, b)
    requires CascadeOf(RemoveSeq(p, xs), c, ys)
    ensures Cascading(p, b, xs + ys)
    ensures c in Elems(xs + ys)
  {
    var q := RemoveSeq(p, xs);
    RemoveSeqItems(p, xs);
    ElemsConcat(xs, ys);
    NoDupConcat(xs, ys);
    ChildrenFirstConcat(p, q, xs, ys);
    forall x ensures Succ(q.dependents, x) <= Succ(p.dependents, x) { RemoveSeqChildren(p, xs, x); }
    ReachCovers(p.dependents, {}, Succ(p.dependents, b));
    ReachMono(q.dependents, p.dependents, {}, {c}, Succ(p.dependents, b));
    ReachCovers(q.dependents, {}, {c});
    ChildrenActive(p, b);
  }

  /** Ranks fall along `dependencies`, so they rise along `dependents`. */
  lemma ChildRank(p: Pool, rank: Id -> nat, bound: nat, b: Id)
    requires Edged(p) && Ranked(p.dependencies, rank, bound)
    ensures forall c :: c in Succ(p.dependents, b) ==> rank(b) < rank(c)
  {
    ChildrenActive(p, b);
    forall c | c in Succ(p.dependents, b) ensures rank(b) < rank(c) {
      SuccDependencies(p, c);
    }
  }

  lemma NotBelowItself(p: Pool, b: Id)
    requires Edged(p) && Acyclic(p.dependencies)
    ensures b !in Reach(p.dependents, {}, Succ(p.dependents, b))
  {
    var rank: Id -> nat, bound: nat :| Ranked(p.dependencies, rank, bound);
    var above := set y | y in Nodes(p.dependents) && rank(b) < rank(y);
    ChildRank(p, rank, bound, b);
    SuccInNodes(p.dependents, b);
    forall y | y in above ensures Succ(p.dependents, y) <= above {
      ChildRank(p, rank, bound, y);
      SuccInNodes(p.dependents, y);
    }
    ReachLeast(p.dependents, {}, Succ(p.dependents, b), above);
  }

  lemma ChildrenFirstSnoc(g: Edges, ids: seq<Id>, b: Id)
    requires ChildrenFirst(g, ids) && Succ(g, b) <= Elems(ids)
    ensures ChildrenFirst(g, ids + [b])
  {
    var all := ids + [b];
    forall i | 0 <= i < |all| ensures Succ(g, all[i]) <= Elems(all[..i]) {
      assert all[..i] == ids[..i];
      if i == |ids| { assert ids[..i] == ids; }
    }
  }

  /** With all children gone, everything below `b` is gone. */
  lemma BelowComplete(g: Edges, ids: seq<Id>, b: Id)
    requires ChildrenFirst(g, ids) && Succ(g, b) <= Elems(ids) <= Reach(g, {}, Succ(g, b))
    ensures Reach(g, {}, {b}) == Elems(ids) + {b}
  {
    ReachSelf(g, b);
    forall x | x in Elems(ids) ensures Succ(g, x) <= Elems(ids) { ChildrenFirstClosed(g, ids, x); }
    ReachLeast(g, {}, Succ(g, b), Elems(ids));
  }

  /** All children are gone: the subtree is complete once `b` follows. */
  lemma CascadeFinish(p: Pool, b: Id, ids: seq<Id>)
    requires Edged(p) && Acyclic(p.dependencies) && Cascading(p, b, ids)
    requires Succ(p.dependents, b) <= Elems(ids)
    ensures b !in ids
    ensures CascadeOf(p, b, if b in p.items then ids + [b] else ids)
  {
    NotBelowItself(p, b);
    BelowComplete(p.dependents, ids, b);
    SubtreeListed(p, b, ids);
    if b in p.items { ChildrenFirstSnoc(p.dependents, ids, b); }
  }

  lemma SubtreeListed(p: Pool, b: Id, ids: seq<Id>)
    requires Elems(ids) <= p.items.Keys && Reach(p.dependents, {}, {b}) == Elems(ids) + {b} && b !in Elems(ids)
    ensures Subtree(p, b) == if b in p.items then Elems(ids + [b]) else Elems(ids)
    ensures NoDup(ids) ==> NoDup(ids + [b])
  {
    ElemsAppend(ids, b);
    if NoDup(ids) { assert forall i :: 0 <= i < |ids| ==> ids[i] in Elems(ids); }
  }

  // ── What the order means ──

  /** Nothing evicted has a descendant that is evicted later. */
  lemma DescendantsBefore(p: Pool, ids: seq<Id>, i: nat, x: Id)
    requires ChildrenFirst(p.dependents, ids) && i < |ids|
    requires x in Reach(p.dependents, {}, Succ(p.dependents, ids[i]))
    ensures x in ids[..i]
  {
    var done := Elems(ids[..i]);
    forall y | y in done ensures Succ(p.dependents, y) <= done {
      var j :| 0 <= j < i && ids[..i][j] == y;
      assert forall z :: z in ids[..j] ==> z in ids[..i];
    }
    ReachLeast(p.dependents, {}, Succ(p.dependents, ids[i]), done);
  }

  /** Whatever is removed with all its descendants before it is closed under child edges. */
  lemma ChildrenFirstClosed(g: Edges, ids: seq<Id>, x: Id)
    requires ChildrenFirst(g, ids) && x in ids
    ensures Succ(g, x) <= Elems(ids)
  {
    var i :| 0 <= i < |ids| && ids[i] == x;
    assert forall y :: y in ids[..i] ==> y in ids;
  }

  /** With no orphans and complete child edges, removing children first leaves no orphans. */
  lemma ClosedNoOrphans(p: Pool, ids: seq<Id>)
    requires Edged(p) && ChildrenFirst(p.dependents, ids)
    requires NoOrphans(p.items) && EdgesFull(p)
    ensures NoOrphans(RemoveSeq(p, ids).items)
    ensures EdgesFull(RemoveSeq(p, ids))
  {
    var r := RemoveSeq(p, ids);
    RemoveSeqItems(p, ids);
    forall c, q | c in r.items && q in r.items[c].dependsOn
      ensures q in r.items && c in Succ(r.dependents, q)
    {
      AlikeFields(r.items, p.items - Elems(ids), c);
      assert c in Succ(p.dependents, q);
      if q in ids { ChildrenFirstClosed(p.dependents, ids, q); }
      RemoveSeqChildren(p, ids, q);
    }
  }

  /** A cascade takes exactly the subtree and leaves no orphans behind. */
  lemma CascadeNoOrphans(p: Pool, b: Id, ids: seq<Id>)
    requires Sound(p) && CascadeOf(p, b, ids)
    requires NoOrphans(p.items) && EdgesFull(p)
    ensures Alike(RemoveSeq(p, ids).items, p.items - Subtree(p, b))
    ensures NoOrphans(RemoveSeq(p, ids).items)
    ensures EdgesFull(RemoveSeq(p, ids))
  {
    RemoveSeqItems(p, ids);
    ClosedNoOrphans(p, ids);
  }

  // ── Several cascades, one after the other ──

  /** `gone` was removed children first, each id once. */
  ghost predicate Swept(p: Pool, gone: seq<Id>) {
    && NoDup(gone) && Elems(gone) <= p.items.Keys
    && ChildrenFirst(p.dependents, gone)
  }

  lemma SweptAppend(p: Pool, gone: seq<Id>, more: seq<Id>)
    requires Edged(p) && Swept(p, gone) && Swept(RemoveSeq(p, gone), more)
    ensures Swept(p, gone + more)
  {
    RemoveSeqItems(p, gone);
    NoDupConcat(gone, more);
    ElemsConcat(gone, more);
    ChildrenFirstConcat(p, RemoveSeq(p, gone), gone, more);
  }

  /** A removed id has no recorded children left. */
  lemma {:induction false} GoneChildless(p: Pool, gone: seq<Id>, x: Id)
    requires Edged(p) && x in gone && x in p.items
    ensures Succ(RemoveSeq(p, gone).dependents, x) == {}
  {
    var zs, y := gone[..|gone| - 1], gone[|gone| - 1];
    assert gone == zs + [y];
    RemoveSeqChildren(p, zs, x);
    RemoveSeqItems(p, zs);
    if x in zs {
      GoneChildless(p, zs, x);
      RemoveChildren(RemoveSeq(p, zs), y, x);
    } else {
      ElemsAppend(zs, y);
      assert x in RemoveSeq(p, zs).items;
    }
  }

  /** Roots that are already gone cascade into nothing. */
  lemma NothingLeft(p: Pool, gone: seq<Id>, root: Id, more: seq<Id>)
    requires Edged(p) && root in p.items && root in gone
    requires CascadeOf(RemoveSeq(p, gone), root, more)
    ensures more == []
  {
    var q := RemoveSeq(p, gone);
    GoneChildless(p, gone, root);
    RemoveSeqItems(p, gone);
    ReachLeast(q.dependents, {}, {root}, {root});
    assert root in Elems(gone);
    ElemsEmpty(more);
  }

  /** What cascades from all of `roots` removed: exactly their subtrees as they were at the start. */
  lemma SweptIsSubtrees(p: Pool, gone: seq<Id>, roots: set<Id>)
    requires Edged(p) && ChildrenFirst(p.dependents, gone) && roots <= Elems(gone)
    requires forall x :: x in gone ==> x in Reach(p.dependents, {}, roots)
    ensures Elems(gone) == Reach(p.dependents, {}, roots)
  {
    forall x | x in Elems(gone) ensures Succ(p.dependents, x) <= Elems(gone) { ChildrenFirstClosed(p.dependents, gone, x); }
    ReachLeast(p.dependents, {}, roots, Elems(gone));
  }

  lemma SubtreeWithin(p: Pool, gone: seq<Id>, root: Id, roots: set<Id>)
    requires Edged(p) && root in roots
    ensures Subtree(RemoveSeq(p, gone), root) <= Reach(p.dependents, {}, roots)
  {
    forall x ensures Succ(RemoveSeq(p, gone).dependents, x) <= Succ(p.dependents, x) { RemoveSeqChildren(p, gone, x); }
    ReachCovers(p.dependents, {}, roots);
    ReachMono(RemoveSeq(p, gone).dependents, p.dependents, {}, {root}, roots);
  }
}
