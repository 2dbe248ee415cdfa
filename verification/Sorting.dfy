/** Stable sorting of ids by a chain of integer comparisons (`cmp().then_with()...`). */
module Sorting {
  import opened Prelude

  /** A comparison key; earlier entries decide first, descending ones are stored negated. */
  type Key = seq<int>

  predicate Less(a: Key, b: Key) {
    |b| > 0 && (|a| == 0 || a[0] < b[0] || (a[0] == b[0] && Less(a[1..], b[1..])))
  }

  predicate AtMost(a: Key, b: Key) { !Less(b, a) }

  lemma {:induction false} LessTotal(a: Key, b: Key)
    ensures a == b || Less(a, b) || Less(b, a)
    ensures !(Less(a, b) && Less(b, a))
    ensures a == b ==> !Less(a, b)
    decreases |a|
  {
    if |a| > 0 && |b| > 0 {
      LessTotal(a[1..], b[1..]);
      if a[0] == b[0] && a[1..] == b[1..] {
        assert a == [a[0]] + a[1..] && b == [b[0]] + b[1..];
      }
    }
  }

  lemma LessOne(a: int, b: int)
    ensures Less([a], [b]) <==> a < b
  {
    assert [a][1..] == [] && [b][1..] == [];
  }

  lemma LessPair(a: int, b: int, c: int, d: int)
    ensures Less([a, b], [c, d]) <==> a < c || (a == c && b < d)
  {
    assert [a, b][1..] == [b] && [c, d][1..] == [d];
    LessOne(b, d);
  }

  /** Keys compare field by field. */
  lemma LessThree(a: Key, b: Key)
    requires |a| == |b| == 3
    ensures Less(a, b) <==> a[0] < b[0] || (a[0] == b[0] && (a[1] < b[1] || (a[1] == b[1] && a[2] < b[2])))
  {
    LessPair(a[1], a[2], b[1], b[2]);
    assert a[1..] == [a[1], a[2]] && b[1..] == [b[1], b[2]];
  }

  lemma LessFour(a: Key, b: Key)
    requires |a| == |b| == 4
    ensures Less(a, b) <==>
      a[0] < b[0] || (a[0] == b[0] && (a[1] < b[1] || (a[1] == b[1] && (a[2] < b[2] || (a[2] == b[2] && a[3] < b[3])))))
  {
    LessThree(a[1..], b[1..]);
  }

  lemma LessFive(a: Key, b: Key)
    requires |a| == |b| == 5
    ensures Less(a, b) <==>
      a[0] < b[0] || (a[0] == b[0] && (a[1] < b[1] || (a[1] == b[1] && (a[2] < b[2] || (a[2] == b[2]
        && (a[3] < b[3] || (a[3] == b[3] && a[4] < b[4])))))))
  {
    LessFour(a[1..], b[1..]);
  }

  lemma {:induction false} LessTransitive(a: Key, b: Key, c: Key)
    requires Less(a, b) && Less(b, c)
    ensures Less(a, c)
    decreases |a|
  {
    if |a| > 0 && a[0] == b[0] && b[0] == c[0] {
      LessTransitive(a[1..], b[1..], c[1..]);
    }
  }

  lemma AtMostTransitive(a: Key, b: Key, c: Key)
    requires AtMost(a, b) && AtMost(b, c)
    ensures AtMost(a, c)
  {
    LessTotal(a, b);
    LessTotal(b, c);
    LessTotal(a, c);
    if Less(c, a) {
      if a != b { LessTransitive(c, a, b); }
    }
  }

  ghost predicate SortedBy(key: map<Id, Key>, xs: seq<Id>) {
    && Elems(xs) <= key.Keys
    && forall i, j :: 0 <= i < j < |xs| ==> xs[i] in key && xs[j] in key && AtMost(key[xs[i]], key[xs[j]])
  }

  /** Stable insertion: after everything that does not compare greater. */
  method InsertSorted(key: map<Id, Key>, xs: seq<Id>, x: Id) returns (ys: seq<Id>)
    requires SortedBy(key, xs) && x in key
    ensures SortedBy(key, ys) && Elems(ys) == Elems(xs) + {x} && |ys| == |xs| + 1
    ensures NoDup(xs) && x !in xs ==> NoDup(ys)
  {
    var i := |xs|;
    while i > 0 && Less(key[x], key[xs[i - 1]])
      invariant 0 <= i <= |xs|
      invariant forall j :: i <= j < |xs| ==> AtMost(key[x], key[xs[j]])
    {
      LessTotal(key[x], key[xs[i - 1]]);
      i := i - 1;
    }
    ys := xs[..i] + [x] + xs[i..];
    InsertedElems(xs, i, x);
    forall j | 0 <= j < i ensures AtMost(key[xs[j]], key[x]) {
      AtMostTransitive(key[xs[j]], key[xs[i - 1]], key[x]) by {
        LessTotal(key[xs[i - 1]], key[xs[i - 1]]);
      }
    }
  }

  lemma InsertedElems(xs: seq<Id>, i: nat, x: Id)
    requires i <= |xs|
    ensures Elems(xs[..i] + [x] + xs[i..]) == Elems(xs) + {x}
  {
    ElemsAppend(xs[..i], x);
    ElemsConcat(xs[..i] + [x], xs[i..]);
    ElemsConcat(xs[..i], xs[i..]);
    assert xs == xs[..i] + xs[i..];
  }

  /** `sort_by` / `sort_by_key`: a stable sort; equal keys keep the order in which they came. */
  method SortBy(key: map<Id, Key>, xs: seq<Id>) returns (ys: seq<Id>)
    requires Elems(xs) <= key.Keys
    ensures SortedBy(key, ys) && Elems(ys) == Elems(xs) && |ys| == |xs|
    ensures NoDup(xs) ==> NoDup(ys)
  {
    ys := [];
    for i := 0 to |xs|
      invariant SortedBy(key, ys) && Elems(ys) == Elems(xs[..i]) && |ys| == i
      invariant NoDup(xs) ==> NoDup(ys)
    {
      assert xs[i] in Elems(xs);
      ElemsAppend(xs[..i], xs[i]);
      assert xs[..i + 1] == xs[..i] + [xs[i]];
      if NoDup(xs) && xs[i] in ys {
        assert xs[i] in Elems(ys) && xs[i] in xs[..i];
      }
      ys := InsertSorted(key, ys, xs[i]);
    }
    assert xs[..|xs|] == xs;
  }

  lemma {:induction false} LeastExists(key: map<Id, Key>, s: set<Id>) returns (x: Id)
    requires s != {} && s <= key.Keys
    ensures x in s && forall y :: y in s ==> AtMost(key[x], key[y])
    decreases s
  {
    x :| x in s;
    LessTotal(key[x], key[x]);
    if s != {x} {
      var z := LeastExists(key, s - {x});
      if Less(key[z], key[x]) {
        LessTotal(key[z], key[x]);
        x := z;
      } else {
        forall y | y in s && y != x ensures AtMost(key[x], key[y]) { AtMostTransitive(key[x], key[z], key[y]); }
      }
    }
  }

  /** Every set of ids can be listed in key order. */
  lemma {:induction false} SortedExists(key: map<Id, Key>, s: set<Id>) returns (xs: seq<Id>)
    requires s <= key.Keys
    ensures NoDup(xs) && Elems(xs) == s && SortedBy(key, xs)
    decreases s
  {
    if s == {} {
      xs := [];
      ElemsEmpty(xs);
    } else {
      var x := LeastExists(key, s);
      var rest := SortedExists(key, s - {x});
      xs := [x] + rest;
      ElemsConcat([x], rest);
      assert forall i :: 0 <= i < |rest| ==> rest[i] in Elems(rest);
    }
  }

  /** A key that tells all elements apart leaves exactly one sorted order. */
  lemma {:induction false} SortedUnique(key: map<Id, Key>, xs: seq<Id>, ys: seq<Id>)
    requires SortedBy(key, xs) && SortedBy(key, ys) && NoDup(xs) && NoDup(ys)
    requires Elems(xs) == Elems(ys)
    requires forall a, b :: a in Elems(xs) && b in Elems(xs) && key[a] == key[b] ==> a == b
    ensures xs == ys
    decreases |xs|
  {
    ElemsEmpty(xs);
    ElemsEmpty(ys);
    if xs != [] {
      FirstIsLeast(key, xs, ys);
      var x := xs[0];
      assert xs == [x] + xs[1..] && ys == [x] + ys[1..];
      TailElems(xs);
      TailElems(ys);
      SortedUnique(key, xs[1..], ys[1..]);
    }
  }

  lemma FirstIsLeast(key: map<Id, Key>, xs: seq<Id>, ys: seq<Id>)
    requires SortedBy(key, xs) && SortedBy(key, ys) && xs != [] && ys != []
    requires Elems(xs) == Elems(ys)
    requires forall a, b :: a in Elems(xs) && b in Elems(xs) && key[a] == key[b] ==> a == b
    ensures xs[0] == ys[0]
  {
    assert xs[0] in Elems(ys) && ys[0] in Elems(xs);
    var i :| 0 <= i < |ys| && ys[i] == xs[0];
    var j :| 0 <= j < |xs| && xs[j] == ys[0];
    LessTotal(key[xs[0]], key[ys[0]]);
  }
}
