/** Sums of a per-item quantity over sets of ids. */
module Sums {
  import opened Prelude

  ghost function Sum(m: map<Id, nat>, s: set<Id>): nat
    requires s <= m.Keys
  {
    if s == {} then 0 else
      var x :| x in s;
      m[x] + Sum(m, s - {x})
  }

  ghost function Total(m: map<Id, nat>): nat { Sum(m, m.Keys) }

  lemma {:induction false} SumPull(m: map<Id, nat>, s: set<Id>, x: Id)
    requires s <= m.Keys && x in s
    ensures Sum(m, s) == m[x] + Sum(m, s - {x})
    decreases s
  {
    var y :| y in s && Sum(m, s) == m[y] + Sum(m, s - {y});
    if x != y {
      SumPull(m, s - {y}, x);
      SumPull(m, s - {x}, y);
      assert s - {y} - {x} == s - {x} - {y};
    }
  }

  lemma SumPush(m: map<Id, nat>, s: set<Id>, x: Id)
    requires s <= m.Keys && x in m.Keys && x !in s
    ensures Sum(m, s + {x}) == Sum(m, s) + m[x]
  {
    SumPull(m, s + {x}, x);
    assert s + {x} - {x} == s;
  }

  /** Only the summed keys matter. */
  lemma {:induction false} SumAgree(m: map<Id, nat>, n: map<Id, nat>, s: set<Id>)
    requires s <= m.Keys && s <= n.Keys
    requires forall x :: x in s ==> m[x] == n[x]
    ensures Sum(m, s) == Sum(n, s)
    decreases s
  {
    if s != {} {
      var x :| x in s;
      SumPull(m, s, x);
      SumPull(n, s, x);
      SumAgree(m, n, s - {x});
    }
  }

  lemma {:induction false} SumUnion(m: map<Id, nat>, s: set<Id>, t: set<Id>)
    requires s <= m.Keys && t <= m.Keys
    ensures s !! t ==> Sum(m, s + t) == Sum(m, s) + Sum(m, t)
    ensures Sum(m, s + t) <= Sum(m, s) + Sum(m, t)
    ensures Sum(m, s) <= Sum(m, s + t)
    decreases t
  {
    if t == {} {
      assert s + t == s;
    } else {
      var x :| x in t;
      SumUnion(m, s, t - {x});
      SumPull(m, t, x);
      if x in s {
        assert s + (t - {x}) == s + t;
      } else {
        assert s + t == (s + (t - {x})) + {x};
        SumPush(m, s + (t - {x}), x);
      }
    }
  }

  lemma SumMono(m: map<Id, nat>, s: set<Id>, t: set<Id>)
    requires s <= t <= m.Keys
    ensures Sum(m, s) <= Sum(m, t)
  {
    SumUnion(m, s, t);
    assert s + t == t;
  }

  lemma TotalInsert(m: map<Id, nat>, x: Id, v: nat)
    requires x !in m
    ensures Total(m[x := v]) == Total(m) + v
  {
    var n := m[x := v];
    SumPull(n, n.Keys, x);
    assert n.Keys - {x} == m.Keys;
    SumAgree(n, m, m.Keys);
  }

  lemma TotalRemove(m: map<Id, nat>, x: Id)
    requires x in m
    ensures Total(m - {x}) == Total(m) - m[x]
    ensures m[x] <= Total(m)
  {
    var n := m - {x};
    SumPull(m, m.Keys, x);
    assert m.Keys - {x} == n.Keys;
    SumAgree(m, n, n.Keys);
  }

  /** Removing a set of keys takes exactly their sum away. */
  lemma TotalRemoveSet(m: map<Id, nat>, s: set<Id>)
    requires s <= m.Keys
    ensures Total(m - s) == Total(m) - Sum(m, s)
    ensures Sum(m, s) <= Total(m)
  {
    var n := m - s;
    assert m.Keys == n.Keys + s && n.Keys !! s;
    SumUnion(m, n.Keys, s);
    SumAgree(m, n, n.Keys);
  }
}
