/** Ordered queues of ids: admission order, dedup bearer/waiter queues and singleton chains. */
module Queues {
  import opened Prelude

  /** `Vec::retain(|x| x != id)`. */
  function Without(xs: seq<Id>, id: Id): seq<Id> {
    if xs == [] then [] else
      Without(xs[..|xs| - 1], id) + (if xs[|xs| - 1] == id then [] else [xs[|xs| - 1]])
  }

  /** The subsequence of `xs` whose members lie in `keep`. */
  function Restrict(xs: seq<Id>, keep: set<Id>): seq<Id> {
    if xs == [] then [] else
      Restrict(xs[..|xs| - 1], keep) + (if xs[|xs| - 1] in keep then [xs[|xs| - 1]] else [])
  }

  lemma WithoutSnoc(xs: seq<Id>, x: Id, id: Id)
    ensures Without(xs + [x], id) == Without(xs, id) + (if x == id then [] else [x])
  {
    assert (xs + [x])[..|xs|] == xs;
  }

  lemma RestrictSnoc(xs: seq<Id>, x: Id, keep: set<Id>)
    ensures Restrict(xs + [x], keep) == Restrict(xs, keep) + (if x in keep then [x] else [])
  {
    assert (xs + [x])[..|xs|] == xs;
  }

  lemma {:induction false} WithoutFacts(xs: seq<Id>, id: Id)
    ensures Elems(Without(xs, id)) == Elems(xs) - {id}
    ensures NoDup(xs) ==> NoDup(Without(xs, id))
    ensures id !in xs ==> Without(xs, id) == xs
  {
    if xs != [] {
      var ys, x := xs[..|xs| - 1], xs[|xs| - 1];
      assert xs == ys + [x];
      ElemsAppend(ys, x);
      WithoutFacts(ys, id);
      ElemsAppend(Without(ys, id), x);
      if NoDup(xs) {
        assert x !in Elems(ys);
        assert forall i :: 0 <= i < |Without(ys, id)| ==> Without(ys, id)[i] in Elems(Without(ys, id));
      }
    }
  }

  lemma {:induction false} RestrictFacts(xs: seq<Id>, keep: set<Id>)
    ensures Elems(Restrict(xs, keep)) == Elems(xs) * keep
    ensures NoDup(xs) ==> NoDup(Restrict(xs, keep))
  {
    if xs != [] {
      var ys, x := xs[..|xs| - 1], xs[|xs| - 1];
      assert xs == ys + [x];
      ElemsAppend(ys, x);
      RestrictFacts(ys, keep);
      ElemsAppend(Restrict(ys, keep), x);
      assert Elems(Restrict(xs, keep)) == if x in keep then Elems(Restrict(ys, keep)) + {x} else Elems(Restrict(ys, keep));
      if NoDup(xs) {
        assert x !in Elems(ys);
        assert forall i :: 0 <= i < |Restrict(ys, keep)| ==> Restrict(ys, keep)[i] in Elems(Restrict(ys, keep));
      }
    }
  }

  /** Only the members of `xs` decide what is kept. */
  lemma {:induction false} RestrictAgree(xs: seq<Id>, a: set<Id>, b: set<Id>)
    requires a * Elems(xs) == b * Elems(xs)
    ensures Restrict(xs, a) == Restrict(xs, b)
  {
    if xs != [] {
      var ys, x := xs[..|xs| - 1], xs[|xs| - 1];
      assert xs == ys + [x];
      ElemsAppend(ys, x);
      assert x in a * Elems(xs) <==> x in b * Elems(xs);
      forall y | y in Elems(ys) ensures y in a <==> y in b {
        assert y in a * Elems(xs) <==> y in b * Elems(xs);
      }
      RestrictAgree(ys, a, b);
    }
  }

  /** Retaining everyone but `id` commutes with restricting to a set. */
  lemma {:induction false} WithoutRestrict(xs: seq<Id>, keep: set<Id>, id: Id)
    ensures Without(Restrict(xs, keep), id) == Restrict(Without(xs, id), keep - {id})
  {
    if xs != [] {
      var ys, x := xs[..|xs| - 1], xs[|xs| - 1];
      WithoutRestrict(ys, keep, id);
      WithoutSnoc(Restrict(ys, keep), x, id);
      RestrictSnoc(Without(ys, id), x, keep - {id});
      assert Restrict(xs, keep) == if x in keep then Restrict(ys, keep) + [x] else Restrict(ys, keep);
      assert Without(xs, id) == if x == id then Without(ys, id) else Without(ys, id) + [x];
    }
  }

  /** Dropping the head of a duplicate-free queue is dropping that id. */
  lemma {:induction false} WithoutHead(xs: seq<Id>)
    requires NoDup(xs) && xs != []
    ensures Without(xs, xs[0]) == xs[1..]
  {
    if |xs| > 1 {
      var ys, x := xs[..|xs| - 1], xs[|xs| - 1];
      WithoutHead(ys);
      assert xs[1..] == ys[1..] + [x];
    }
  }

  lemma {:induction false} WithoutConcat(xs: seq<Id>, ys: seq<Id>, id: Id)
    ensures Without(xs + ys, id) == Without(xs, id) + Without(ys, id)
  {
    if ys == [] {
      assert xs + ys == xs;
    } else {
      var zs, y := ys[..|ys| - 1], ys[|ys| - 1];
      WithoutConcat(xs, zs, id);
      assert xs + ys == (xs + zs) + [y];
      WithoutSnoc(xs + zs, y, id);
    }
  }
}
