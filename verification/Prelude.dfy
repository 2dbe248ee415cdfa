/** Result types, identifiers and the fixed-width arithmetic the mempool relies on. */
module Prelude {

  datatype Option<+T> = None | Some(value: T)

  datatype Result<+T, +E> = Ok(value: T) | Err(error: E)

  /** A 32-byte bundle id, read as a big-endian number: byte order is numeric order. */
  type Id = nat

  /**
   * A coin id under an ideal hash: two coins have the same id exactly when they name the same
   * parent coin, puzzle hash and amount. `Minted` coins have a history the mempool never sees.
   */
  datatype CoinId =
    | Minted(serial: nat)
    | Created(parent: CoinId, puzzleHash: nat, amount: nat)

  /** A coin together with the hash of the solution that spends it. */
  datatype DedupKey = DedupKey(coin: CoinId, solution: nat)

  const TWO_64: nat := 0x1_0000_0000_0000_0000
  const U64_MAX: nat := TWO_64 - 1
  const U128_MAX: nat := 0xFFFF_FFFF_FFFF_FFFF_FFFF_FFFF_FFFF_FFFF
  const U32_MAX: nat := 0xFFFF_FFFF

  type U64 = n: nat | n <= U64_MAX witness 0
  type U32 = n: nat | n <= U32_MAX witness 0
  type U128 = n: nat | n <= U128_MAX witness 0

  function Min(a: int, b: int): int { if a <= b then a else b }

  /** `u64::saturating_add` on arguments that may already be sums. */
  function SatAdd(a: nat, b: nat): U64 { if a + b > U64_MAX then U64_MAX else a + b }

  /** `u64::saturating_sub`. */
  function SatSub(a: U64, b: nat): U64 { if a < b then 0 else a - b }

  /** `u64::saturating_mul`. */
  function SatMul(a: nat, b: nat): U64 { if a * b > U64_MAX then U64_MAX else a * b }

  /** A plain `+` or `sum()` on `u64`: it wraps in a release build (and aborts in a debug build). */
  function Wrap(n: nat): U64 { n % TWO_64 }

  /** Elements of a sequence. */
  function Elems<T(==)>(xs: seq<T>): set<T> { set x | x in xs }

  ghost predicate NoDup<T>(xs: seq<T>) {
    forall i, j :: 0 <= i < j < |xs| ==> xs[i] != xs[j]
  }

  lemma ElemsEmpty<T>(xs: seq<T>)
    ensures Elems(xs) == {} <==> xs == []
  {
    if xs != [] { assert xs[0] in Elems(xs); }
  }

  lemma ElemsAppend<T>(xs: seq<T>, x: T)
    ensures Elems(xs + [x]) == Elems(xs) + {x}
  {
    forall y ensures y in Elems(xs + [x]) <==> y in Elems(xs) + {x} {
      assert y in xs + [x] <==> y in xs || y == x;
    }
  }

  lemma ElemsConcat<T>(xs: seq<T>, ys: seq<T>)
    ensures Elems(xs + ys) == Elems(xs) + Elems(ys)
  {
    forall y ensures y in Elems(xs + ys) <==> y in Elems(xs) + Elems(ys) {
      assert y in xs + ys <==> y in xs || y in ys;
    }
  }

  /** One more element of a prefix. */
  lemma PrefixElems<T>(xs: seq<T>, i: nat)
    requires i < |xs|
    ensures Elems(xs[..i + 1]) == Elems(xs[..i]) + {xs[i]}
    ensures xs[i] in Elems(xs)
  {
    assert xs[..i + 1] == xs[..i] + [xs[i]];
    ElemsAppend(xs[..i], xs[i]);
  }

  lemma PrefixHas<T>(xs: seq<T>, k: nat)
    requires k <= |xs|
    ensures forall i :: 0 <= i < k ==> xs[i] in Elems(xs[..k])
  {
    assert forall i :: 0 <= i < k ==> xs[..k][i] == xs[i];
  }

  lemma PrefixWithin<T>(xs: seq<T>, k: nat)
    requires k <= |xs|
    ensures Elems(xs[..k]) <= Elems(xs)
    ensures NoDup(xs) ==> NoDup(xs[..k])
  {
    assert forall x :: x in xs[..k] ==> x in xs;
  }

  lemma WholePrefix<T>(xs: seq<T>)
    ensures xs[..|xs|] == xs
  {
  }

  lemma TailElems<T>(xs: seq<T>)
    requires xs != [] && NoDup(xs)
    ensures Elems(xs[1..]) == Elems(xs) - {xs[0]} && NoDup(xs[1..])
  {
    forall y ensures y in Elems(xs[1..]) <==> y in Elems(xs) - {xs[0]} {
      if y in Elems(xs) - {xs[0]} {
        var i :| 0 <= i < |xs| && xs[i] == y;
        assert xs[1..][i - 1] == y;
      }
    }
  }

  /** Enumerates a hash set: any order is possible. */
  method Enumerate<T(==)>(s: set<T>) returns (xs: seq<T>)
    ensures Elems(xs) == s && NoDup(xs)
    ensures |xs| == |s|
  {
    xs := [];
    var rest := s;
    while rest != {}
      invariant Elems(xs) + rest == s && Elems(xs) !! rest
      invariant NoDup(xs) && |xs| + |rest| == |s|
      decreases rest
    {
      var x :| x in rest;
      assert x !in Elems(xs);
      ElemsAppend(xs, x);
      xs, rest := xs + [x], rest - {x};
    }
  }
}
