/**
 The `checked_mul`, `checked_div`, narrow-to-`u64` chain that every adapter uses to turn shares
 into tokens and back, rounding down or up.
 */
module CheckedRatio {
  import opened Wrappers
  import opened MachineInts
  import opened Arithmetic

  function MulDivFloor(a: u128, b: u128, d: u128): Option<u64> {
    var numerator :- CheckedMul128(a, b);
    var quotient :- CheckedDiv128(numerator, d);
    NarrowTo64(quotient)
  }

  function MulDivCeil(a: u128, b: u128, d: u128): Option<u64>
    requires 0 < d
  {
    var numerator :- CheckedMul128(a, b);
    var rounded :- CheckedAdd128(numerator, d - 1);
    var quotient :- CheckedDiv128(rounded, d);
    NarrowTo64(quotient)
  }

  /** A floor result is the largest `q` with `q * d <= a * b`. */
  lemma FloorMeaning(a: u128, b: u128, d: u128, q: u64)
    requires MulDivFloor(a, b, d) == Some(q)
    ensures 0 < d && q == a * b / d
    ensures forall r: nat :: r <= q <==> r * d <= a * b
  {
    forall r: nat
      ensures r <= q <==> r * d <= a * b
    {
      DivAtLeast(a * b, d, r);
    }
  }

  /** A ceiling result is the least `q` with `a * b <= q * d`. */
  lemma CeilMeaning(a: u128, b: u128, d: u128, q: u64)
    requires 0 < d && MulDivCeil(a, b, d) == Some(q)
    ensures forall r: nat :: q <= r <==> a * b <= r * d
  {
    forall r: nat
      ensures q <= r <==> a * b <= r * d
    {
      CeilAtMost(a * b, d, r);
    }
  }

  /** Exactly when the floor chain fails. */
  lemma FloorFailure(a: u128, b: u128, d: u128)
    requires 0 < d
    ensures MulDivFloor(a, b, d).None? <==> TWO_128 <= a * b || TWO_64 <= a * b / d
  {
    MulMono(0, a, b);
    DivBounds(a * b, d);
  }

  /** Below a 64-bit divisor the product can only overflow when the quotient does not fit either. */
  lemma FloorFailsOnlyOnLargeQuotient(a: u128, b: u128, d: u128)
    requires 0 < d < TWO_64
    ensures MulDivFloor(a, b, d).None? <==> TWO_64 <= a * b / d
  {
    FloorFailure(a, b, d);
    if TWO_128 <= a * b {
      MulMono(d, TWO_64, TWO_64);
      DivAtLeast(a * b, d, TWO_64);
    }
  }

  /** Exactly when the ceiling chain of two 64-bit factors fails. */
  lemma CeilFailure(a: u64, b: u64, d: u128)
    requires 0 < d
    ensures MulDivCeil(a, b, d).None? <==>
            TWO_128 <= a * b + (d - 1) || TWO_64 <= (a * b + (d - 1)) / d
  {
    MulMonoBoth(a, TWO_64 - 1, b, TWO_64 - 1);
  }

  /** Below a divisor of `2^65` the rounding term cannot overflow. */
  lemma CeilFailsOnlyOnLargeQuotient(a: u64, b: u64, d: u128)
    requires 0 < d < 2 * TWO_64
    ensures MulDivCeil(a, b, d).None? <==> TWO_64 <= (a * b + (d - 1)) / d
  {
    MulMonoBoth(a, TWO_64 - 1, b, TWO_64 - 1);
  }
}
