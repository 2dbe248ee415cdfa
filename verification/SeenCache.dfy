/** The bounded FIFO cache of recently seen bundle ids (src/pools/seen.rs). */
module SeenCaches {
  import opened Prelude

  /** The last `n` entries of a log; all of them when the bound is 0. */
  function Recent(log: seq<Id>, n: nat): seq<Id> {
    if n == 0 || |log| <= n then log else log[|log| - n..]
  }

  /** Position by position. */
  lemma RecentMeans(log: seq<Id>, n: nat, id: Id)
    ensures id in Recent(log, n) <==> exists i :: 0 <= i < |log| && log[i] == id && (n == 0 || |log| - n <= i)
  {
    if n == 0 || |log| <= n {
      TailMembers(log, 0, id);
    } else {
      var start: nat :| start + n == |log|;
      TailMembers(log, start, id);
    }
  }

  lemma TailMembers(log: seq<Id>, start: nat, id: Id)
    requires start <= |log|
    ensures id in log[start..] <==> exists i :: start <= i < |log| && log[i] == id
  {
    if i :| start <= i < |log| && log[i] == id {
      var j: nat :| start + j == i;
      assert log[start..][j] == id;
    }
  }

  lemma {:induction false} NoDupCardinality(xs: seq<Id>)
    requires NoDup(xs)
    ensures |Elems(xs)| == |xs|
  {
    if xs == [] {
      ElemsEmpty(xs);
    } else {
      var ys, x := xs[..|xs| - 1], xs[|xs| - 1];
      NoDupCardinality(ys);
      ElemsAppend(ys, x);
      assert xs == ys + [x];
      assert x !in Elems(ys);
    }
  }

  lemma RecentSnoc(log: seq<Id>, n: nat, id: Id)
    ensures var kept := Recent(log, n);
      Recent(log + [id], n) == (if n > 0 && |kept| == n then kept[1..] else kept) + [id]
  {
  }

  class SeenCache {
    var entries: set<Id>
    var order: seq<Id>
    const maxSize: nat
    ghost var accepted: seq<Id>  // every id accepted since the last clear

    /** Set and queue agree, and hold exactly the most recent acceptances. */
    ghost predicate Valid()
      reads this
    {
      && entries == Elems(order) && NoDup(order)
      && (maxSize > 0 ==> |order| <= maxSize)
      && order == Recent(accepted, maxSize)
    }

    constructor (maxSize: nat)
      ensures Valid() && this.maxSize == maxSize && accepted == []
    {
      entries, order, accepted := {}, [], [];
      this.maxSize := maxSize;
    }

    method Contains(id: Id) returns (r: bool)
      requires Valid()
      ensures r <==> id in Recent(accepted, maxSize)
    {
      r := id in entries;
    }

    /** Refuses an id still cached; otherwise records it, forgetting the oldest when full. */
    method Insert(id: Id) returns (added: bool)
      requires Valid()
      modifies this
      ensures Valid()
      ensures added <==> id !in old(order)
      ensures accepted == if added then old(accepted) + [id] else old(accepted)
      ensures added ==> id in entries
    {
      if id in entries { return false; }
      ghost var start := order;
      NoDupCardinality(order);
      while |entries| >= maxSize && maxSize > 0
        invariant entries == Elems(order) && NoDup(order) && |entries| == |order| && id !in entries
        invariant order == start || (|start| == maxSize && order == start[1..])
        invariant accepted == old(accepted)
        decreases |order|
      {
        TailElems(order);
        NoDupCardinality(order[1..]);
        entries := entries - {order[0]};
        order := order[1..];
      }
      ElemsAppend(order, id);
      RecentSnoc(accepted, maxSize, id);
      entries := entries + {id};
      order := order + [id];
      accepted := accepted + [id];
      return true;
    }

    method Clear()
      modifies this
      ensures Valid() && accepted == []
    {
      entries, order, accepted := {}, [], [];
    }
  }
}
