/** MarginFi's I80F48 fixed-point numbers: 80 whole bits and 48 fractional bits. */
module FixedPoint {
  import opened Wrappers
  import opened MachineInts
  import opened Arithmetic
  import opened Solvency

  const ONE: int := 0x1_0000_0000_0000
  const TWO_96: int := 0x1_0000_0000_0000_0000_0000_0000

  datatype MarginfiError =
    | InvalidAmount
    | InvalidMint
    | InvalidOwner
    | InvalidProtocolProgram
    | InvalidMarginfiAccount
    | InvalidBank
    | InvalidGroup
    | InvalidVault
    | InvalidTokenAccount
    | ProtocolCpiFailed
    | MathOverflow
    | InvalidFixedPointValue
    | InvalidProtocolAccount
    | MissingHealthAccounts

  function FloorToU64(raw: u128): Result<u64, MarginfiError> {
    NarrowTo64(raw / ONE).OkOr(InvalidFixedPointValue)
  }

  /** The whole part of a raw value, refused exactly when it does not fit 64 bits. */
  lemma FloorExact(raw: u128)
    ensures forall q: u64 :: FloorToU64(raw) == Ok(q) <==> q * ONE <= raw < (q + 1) * ONE
    ensures FloorToU64(raw) == Err(InvalidFixedPointValue) <==> TWO_64 * ONE <= raw
    ensures FloorToU64(raw).Err? ==> FloorToU64(raw) == Err(InvalidFixedPointValue)
  {}

  function CrossTerms(leftWhole: u128, leftFrac: u128, rightWhole: u128, rightFrac: u128): Option<u128> {
    var first :- CheckedMul128(leftWhole, rightFrac);
    var second :- CheckedMul128(rightWhole, leftFrac);
    CheckedAdd128(first, second)
  }

  /** The product of two raw values, split into whole and fractional parts, in whole units. */
  function MulFloorToU64(left: u128, right: u128): Result<u64, MarginfiError> {
    var leftWhole, leftFrac := left / ONE, left % ONE;
    var rightWhole, rightFrac := right / ONE, right % ONE;
    var whole :- CheckedMul128(leftWhole, rightWhole).OkOr(MathOverflow);
    var cross :- CrossTerms(leftWhole, leftFrac, rightWhole, rightFrac).OkOr(MathOverflow);
    var frac :- CheckedMul128(leftFrac, rightFrac).OkOr(MathOverflow);
    var partial :- CheckedAdd128(whole, cross / ONE).OkOr(MathOverflow);
    var value :- CheckedAdd128(partial, frac / ONE / ONE).OkOr(MathOverflow);
    NarrowTo64(value).OkOr(InvalidFixedPointValue)
  }

  /** The exact product with the product of the two fractional parts left out, in whole units. */
  function Truncated(left: nat, right: nat): (p: nat) {
    Expansion(left, right);
    (left * right - (left % ONE) * (right % ONE)) / TWO_96
  }

  function Whole(left: nat, right: nat): nat {
    (left / ONE) * (right / ONE)
  }

  function Cross(left: nat, right: nat): nat {
    (left / ONE) * (right % ONE) + (right / ONE) * (left % ONE)
  }

  lemma Expansion(left: nat, right: nat)
    ensures left * right ==
            (Whole(left, right) * ONE + Cross(left, right)) * ONE + (left % ONE) * (right % ONE)
  {
    var lw, lf, rw, rf := left / ONE, left % ONE, right / ONE, right % ONE;
    assert left == lw * ONE + lf && right == rw * ONE + rf;
    assert left * right == lw * ONE * right + lf * right;
    assert lw * ONE * right == ONE * (lw * (rw * ONE) + lw * rf) by {
      assert lw * right == lw * (rw * ONE) + lw * rf;
    }
    assert lf * right == ONE * (rw * lf) + lf * rf by {
      assert lf * right == lf * (rw * ONE) + lf * rf;
      assert lf * (rw * ONE) == ONE * (rw * lf);
    }
    assert lw * (rw * ONE) == (lw * rw) * ONE;
  }

  lemma TruncatedParts(left: nat, right: nat)
    ensures Truncated(left, right) == Whole(left, right) + Cross(left, right) / ONE
  {
    Expansion(left, right);
  }

  lemma FractionBound(left: nat, right: nat)
    ensures (left % ONE) * (right % ONE) < TWO_96
    ensures (left % ONE) * (right % ONE) / ONE < ONE
  {
    MulMonoBoth(left % ONE, ONE - 1, right % ONE, ONE - 1);
  }

  /** The accepted raw values are the non-negative `i128`s, so the cross and fraction terms fit. */
  lemma CrossTermsFit(left: u128, right: u128)
    requires left < TWO_127 && right < TWO_127
    ensures CrossTerms(left / ONE, left % ONE, right / ONE, right % ONE) == Some(Cross(left, right))
    ensures CheckedMul128(left % ONE, right % ONE).Some?
  {
    MulMonoBoth(left / ONE, TWO_127 / ONE - 1, right % ONE, ONE - 1);
    MulMonoBoth(right / ONE, TWO_127 / ONE - 1, left % ONE, ONE - 1);
    FractionBound(left, right);
  }

  /** No intermediate check refuses a representable answer, and the two errors split at `2^128`. */
  lemma MulOutcome(left: u128, right: u128)
    requires left < TWO_127 && right < TWO_127
    ensures MulFloorToU64(left, right) ==
            if Truncated(left, right) < TWO_64 then Ok(Truncated(left, right))
            else if Truncated(left, right) < TWO_128 then Err(InvalidFixedPointValue)
            else Err(MathOverflow)
  {
    CrossTermsFit(left, right);
    TruncatedParts(left, right);
    FractionBound(left, right);
  }

  /** Against the true floor the adapter is never above, and one below exactly on a dropped carry. */
  lemma DroppedCarry(left: nat, right: nat)
    ensures left * right / TWO_96 ==
            Truncated(left, right) +
            if ONE <= Cross(left, right) % ONE + (left % ONE) * (right % ONE) / ONE then 1 else 0
  {
    Expansion(left, right);
    TruncatedParts(left, right);
    FractionBound(left, right);
    var high := Whole(left, right) * ONE + Cross(left, right);
    var frac := (left % ONE) * (right % ONE);
    assert left * right / ONE == high + frac / ONE;
    assert left * right / TWO_96 == left * right / ONE / ONE;
  }

  /** A carry that is dropped: the square of a number just above 1.4 comes out as 1, not 2. */
  lemma CarryDropped()
    ensures var x := ONE + 0x7333_3333_3333;
            MulFloorToU64(x, x) == Ok(1) && x * x / TWO_96 == 2
  {}

  lemma {:induction false} TruncatedMono(left: nat, left': nat, right: nat)
    requires left <= left'
    ensures Truncated(left, right) <= Truncated(left', right)
    ensures Truncated(right, left) <= Truncated(right, left')
  {
    TruncatedParts(left, right);
    TruncatedParts(left', right);
    TruncatedParts(right, left);
    TruncatedParts(right, left');
    HighMono(left, left', right);
    assert Whole(right, left) == Whole(left, right) && Whole(right, left') == Whole(left', right);
  }

  function High(left: nat, right: nat): nat {
    Whole(left, right) * ONE + Cross(left, right)
  }

  lemma HighForm(left: nat, right: nat)
    ensures High(left, right) == (left / ONE) * right + (right / ONE) * (left % ONE)
  {
    assert (left / ONE) * right == (left / ONE) * ((right / ONE) * ONE) + (left / ONE) * (right % ONE);
    assert (left / ONE) * ((right / ONE) * ONE) == Whole(left, right) * ONE;
  }

  lemma HighMono(left: nat, left': nat, right: nat)
    requires left <= left'
    ensures High(left, right) <= High(left', right)
  {
    HighForm(left, right);
    HighForm(left', right);
    var lw, lw', rw := left / ONE, left' / ONE, right / ONE;
    if lw == lw' {
      MulMono(left % ONE, left' % ONE, rw);
    } else {
      assert lw + 1 <= lw';
      MulMono(lw + 1, lw', right);
      assert (lw + 1) * right == lw * right + right;
      MulMono(left % ONE, ONE, rw);
      MulMono(0, left' % ONE, rw);
      assert rw * (left % ONE) <= right <= lw' * right - lw * right;
    }
  }

  lemma HighSuperadditive(a: nat, b: nat, right: nat)
    ensures High(a, right) + High(b, right) <= High(a + b, right)
  {
    HighForm(a, right);
    HighForm(b, right);
    HighForm(a + b, right);
    var rw := right / ONE;
    var carry := if a % ONE + b % ONE < ONE then 0 else 1;
    assert (a + b) / ONE == a / ONE + b / ONE + carry;
    assert (a + b) % ONE == a % ONE + b % ONE - carry * ONE;
    assert (a / ONE + b / ONE + carry) * right == (a / ONE) * right + (b / ONE) * right + carry * right;
    assert rw * (a % ONE + b % ONE - carry * ONE) == rw * (a % ONE) + rw * (b % ONE) - carry * (rw * ONE);
    assert rw * ONE <= right;
  }

  lemma TruncatedSuperadditive(a: nat, b: nat, right: nat)
    ensures Truncated(a, right) + Truncated(b, right) <= Truncated(a + b, right)
  {
    HighSuperadditive(a, b, right);
    TruncatedParts(a, right);
    TruncatedParts(b, right);
    TruncatedParts(a + b, right);
  }

  /** However a bank's shares are split, the values reported to the holders fit in the whole. */
  lemma HoldersFit(shares: seq<nat>, values: seq<nat>, shareValue: u128)
    requires |shares| == |values| && shareValue < TWO_127
    requires forall i | 0 <= i < |shares| ::
               shares[i] < TWO_127 && MulFloorToU64(shares[i], shareValue) == Ok(values[i])
    ensures Sum(values) <= Truncated(Sum(shares), shareValue) <= Sum(shares) * shareValue / TWO_96
  {
    forall i | 0 <= i < |shares|
      ensures values[i] <= Truncated(shares[i], shareValue)
    {
      MulOutcome(shares[i], shareValue);
    }
    forall a: nat, b: nat
      ensures Truncated(a, shareValue) + Truncated(b, shareValue) <= Truncated(a + b, shareValue)
    {
      TruncatedSuperadditive(a, b, shareValue);
    }
    SumSuperadditive(s => Truncated(s, shareValue), shares, values);
    DroppedCarry(Sum(shares), shareValue);
  }
}
