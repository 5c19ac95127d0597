/** Sums of rounded-down values over any number of holders. */
module Solvency {
  import opened Arithmetic

  function Sum(xs: seq<nat>): nat {
    if xs == [] then 0 else xs[0] + Sum(xs[1..])
  }

  /** What a holder of `shares` out of `total` is owed of `amount`; nothing when there is no total. */
  function Portion(shares: nat, amount: nat, total: nat): (p: nat) {
    if total == 0 then 0 else
      DivBounds(shares * amount, total);
      shares * amount / total
  }

  lemma PortionAtLeast(shares: nat, amount: nat, total: nat, q: nat)
    requires 0 < total
    ensures q <= Portion(shares, amount, total) <==> q * total <= shares * amount
  {
    DivAtLeast(shares * amount, total, q);
  }

  lemma PortionSuperadditive(a: nat, b: nat, amount: nat, total: nat)
    ensures Portion(a, amount, total) + Portion(b, amount, total) <= Portion(a + b, amount, total)
  {
    if total != 0 {
      assert (a + b) * amount == a * amount + b * amount;
      DivSuperadditive(a * amount, b * amount, total);
    }
  }

  lemma PortionMono(a: nat, b: nat, v: nat, w: nat, total: nat)
    requires a <= b && v <= w
    ensures Portion(a, v, total) <= Portion(b, w, total)
  {
    if total != 0 {
      MulMonoBoth(a, b, v, w);
      DivMono(a * v, b * w, total);
    }
  }

  lemma PortionWithinAmount(shares: nat, amount: nat, total: nat)
    requires shares <= total
    ensures Portion(shares, amount, total) <= amount
  {
    if total != 0 {
      MulMono(shares, total, amount);
      DivAtLeast(shares * amount, total, amount + 1);
      assert (amount + 1) * total == total * amount + total;
    }
  }

  /** Values bounded by a superadditive function sum to at most its value at the summed shares. */
  lemma {:induction false} SumSuperadditive(f: nat -> nat, shares: seq<nat>, values: seq<nat>)
    requires |shares| == |values|
    requires forall i | 0 <= i < |shares| :: values[i] <= f(shares[i])
    requires forall a: nat, b: nat :: f(a) + f(b) <= f(a + b)
    ensures Sum(values) <= f(Sum(shares))
  {
    if shares == [] {
    } else {
      SumSuperadditive(f, shares[1..], values[1..]);
      assert f(shares[0]) + f(Sum(shares[1..])) <= f(shares[0] + Sum(shares[1..]));
    }
  }

  /** Holders whose shares fit in the total are together owed at most the amount. */
  lemma PortionsFit(shares: seq<nat>, values: seq<nat>, amount: nat, total: nat)
    requires |shares| == |values|
    requires forall i | 0 <= i < |shares| :: values[i] <= Portion(shares[i], amount, total)
    requires Sum(shares) <= total
    ensures Sum(values) <= amount
  {
    forall a: nat, b: nat
      ensures Portion(a, amount, total) + Portion(b, amount, total) <= Portion(a + b, amount, total)
    {
      PortionSuperadditive(a, b, amount, total);
    }
    SumSuperadditive(s => Portion(s, amount, total), shares, values);
    PortionWithinAmount(Sum(shares), amount, total);
  }
}
