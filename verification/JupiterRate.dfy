/** Jupiter's conversions between LP tokens and USDC, and the basis-point guards around them. */
module JupiterRate {
  import opened Wrappers
  import opened MachineInts
  import opened Arithmetic
  import opened CheckedRatio
  import opened Solvency

  datatype JupiterError =
    | InvalidAmount
    | InvalidMint
    | InvalidOwner
    | ProtocolCpiFailed
    | MathOverflow
    | InvalidProtocolProgram
    | InvalidPool
    | InvalidCustody
    | InvalidPerpetuals
    | InvalidTransferAuthority
    | InvalidEventAuthority
    | InvalidTokenAccount

  const BPS_DENOMINATOR := 10_000
  const DEPOSIT_MIN_OUT_BPS := 9_500
  const WITHDRAW_BURN_BUFFER_BPS := 10_100

  function LpToUsdcFloor(lp: u64, aum: u128, supply: u64): Result<u64, JupiterError> {
    if lp == 0 || supply == 0 || aum == 0 then Ok(0)
    else MulDivFloor(lp, aum, supply).OkOr(MathOverflow)
  }

  function UsdcToLpFloor(amount: u64, aum: u128, supply: u64): Result<u64, JupiterError> {
    if amount == 0 || supply == 0 || aum == 0 then Ok(amount)
    else MulDivFloor(amount, supply, aum).OkOr(MathOverflow)
  }

  function UsdcToLpCeil(amount: u64, aum: u128, supply: u64): Result<u64, JupiterError> {
    if amount == 0 || supply == 0 || aum == 0 then Ok(amount)
    else MulDivCeil(amount, supply, aum).OkOr(MathOverflow)
  }

  function ApplyBpsFloor(value: u64, bps: u128): Result<u64, JupiterError> {
    MulDivFloor(value, bps, BPS_DENOMINATOR).OkOr(MathOverflow)
  }

  function ApplyBpsCeil(value: u64, bps: u128): Result<u64, JupiterError> {
    MulDivCeil(value, bps, BPS_DENOMINATOR).OkOr(MathOverflow)
  }

  predicate Priced(aum: u128, supply: u64) {
    aum != 0 && supply != 0
  }

  /** The value of LP tokens is their portion of the pool, refused exactly when that does not fit. */
  lemma ValueOutcome(lp: u64, aum: u128, supply: u64)
    ensures LpToUsdcFloor(lp, aum, supply) ==
            var exact := Portion(lp, aum, supply);
            if exact < TWO_64 then Ok(exact) else Err(MathOverflow)
  {
    if lp != 0 && Priced(aum, supply) {
      FloorFailsOnlyOnLargeQuotient(lp, aum, supply);
      if MulDivFloor(lp, aum, supply).Some? {
        FloorMeaning(lp, aum, supply, MulDivFloor(lp, aum, supply).value);
      }
    }
  }

  /** A quote, one for one without a rate, is refused exactly when it does not fit, however large the pool. */
  lemma QuoteOutcome(amount: u64, aum: u128, supply: u64)
    ensures UsdcToLpFloor(amount, aum, supply) ==
            var exact := if Priced(aum, supply) then Portion(amount, supply, aum) else amount;
            if exact < TWO_64 then Ok(exact) else Err(MathOverflow)
  {
    if amount != 0 && Priced(aum, supply) {
      MulMonoBoth(amount, TWO_64 - 1, supply, TWO_64 - 1);
      FloorFailure(amount, supply, aum);
      if MulDivFloor(amount, supply, aum).Some? {
        FloorMeaning(amount, supply, aum, MulDivFloor(amount, supply, aum).value);
      }
    }
  }

  /**
   The rounding-up quote is the least LP amount worth the request, one for one without a rate. It can
   also fail by overflowing the rounding term, for a nonzero amount and a pool of `2^65` or more.
   */
  lemma BurnOutcome(amount: u64, aum: u128, supply: u64)
    ensures UsdcToLpCeil(amount, aum, supply).Err? <==>
            && amount != 0 && Priced(aum, supply)
            && (TWO_128 <= amount * supply + (aum - 1) || TWO_64 <= (amount * supply + (aum - 1)) / aum)
    ensures aum < 2 * TWO_64 ==>
              (UsdcToLpCeil(amount, aum, supply).Err? <==>
               amount != 0 && Priced(aum, supply) && TWO_64 <= (amount * supply + (aum - 1)) / aum)
    ensures var base := UsdcToLpCeil(amount, aum, supply);
            base.Ok? ==>
              if amount != 0 && Priced(aum, supply)
              then forall r: nat :: base.value <= r <==> amount * supply <= r * aum
              else base.value == amount
  {
    if amount != 0 && Priced(aum, supply) {
      CeilFailure(amount, supply, aum);
      if UsdcToLpCeil(amount, aum, supply).Ok? {
        CeilMeaning(amount, supply, aum, UsdcToLpCeil(amount, aum, supply).value);
      }
      if aum < 2 * TWO_64 {
        CeilFailsOnlyOnLargeQuotient(amount, supply, aum);
      }
    }
  }

  /** A pool of `2^65` that refuses a withdrawal whose exact burn is `2^63` tokens. */
  lemma SpuriousBurnFailure()
    ensures ((TWO_64 - 1) * (TWO_64 - 1) + (2 * TWO_64 - 1)) / (2 * TWO_64) == TWO_64 / 2
    ensures UsdcToLpCeil(TWO_64 - 1, 2 * TWO_64, TWO_64 - 1) == Err(MathOverflow)
  {
    assert (TWO_64 - 1) * (TWO_64 - 1) == TWO_128 - 2 * TWO_64 + 1;
  }

  /** Without a rate one unit is quoted at one token, and withdrawing it burns two worth nothing. */
  lemma ZeroRateDisagrees(supply: u64)
    ensures UsdcToLpFloor(1, 0, supply) == Ok(1) && LpToUsdcFloor(2, 0, supply) == Ok(0)
    ensures UsdcToLpCeil(1, 0, supply) == Ok(1) && ApplyBpsCeil(1, WITHDRAW_BURN_BUFFER_BPS) == Ok(2)
  {}

  /** The deposit guard never fails; the burn buffer fails exactly when the buffered amount does not fit. */
  lemma GuardOutcome(value: u64)
    ensures ApplyBpsFloor(value, DEPOSIT_MIN_OUT_BPS) == Ok(value * 9_500 / 10_000)
    ensures ApplyBpsCeil(value, WITHDRAW_BURN_BUFFER_BPS) ==
            var buffered := (value * 10_100 + 9_999) / 10_000;
            if buffered < TWO_64 then Ok(buffered) else Err(MathOverflow)
  {}

  /**
   A deposit quote is the last LP amount not worth more than the deposit; at a zero rate, where the
   quote is one for one but LP tokens are worth nothing, the upper side fails for every real deposit.
   */
  lemma QuoteSandwich(amount: u64, aum: u128, supply: u64, quoted: u64)
    requires UsdcToLpFloor(amount, aum, supply) == Ok(quoted)
    ensures LpToUsdcFloor(quoted, aum, supply).Ok? && LpToUsdcFloor(quoted, aum, supply).value <= amount
    ensures amount <= Portion(quoted + 1, aum, supply) <==> Priced(aum, supply) || amount == 0
  {
    ValueOutcome(quoted, aum, supply);
    if Priced(aum, supply) {
      QuoteOutcome(amount, aum, supply);
      DivIsFloor(amount * supply, aum);
      DivAtLeast(quoted * aum, supply, amount + 1);
      assert (amount + 1) * supply == amount * supply + supply;
      DivAtLeast((quoted + 1) * aum, supply, amount);
    } else {
      assert Portion(quoted, aum, supply) == 0 by {
        if supply != 0 { DivBounds(quoted * aum, supply); }
      }
      assert Portion(quoted + 1, aum, supply) == 0 by {
        if supply != 0 { DivBounds((quoted + 1) * aum, supply); }
      }
    }
  }

  /** What a withdrawal burns is worth the request with its one percent buffer, except at a zero rate. */
  lemma BurnKeepsBuffer(amount: u64, aum: u128, supply: u64, base: u64, burned: u64)
    requires UsdcToLpCeil(amount, aum, supply) == Ok(base)
    requires ApplyBpsCeil(base, WITHDRAW_BURN_BUFFER_BPS) == Ok(burned)
    ensures amount * 10_100 / 10_000 <= Portion(burned, aum, supply) <==> Priced(aum, supply) || amount == 0
  {
    if Priced(aum, supply) && amount != 0 {
      CeilMeaning(amount, supply, aum, base);
      assert amount * supply <= base * aum;
      CeilMeaning(base, WITHDRAW_BURN_BUFFER_BPS, BPS_DENOMINATOR, burned);
      assert base * 10_100 <= burned * 10_000;
      var floor := amount * 10_100 / 10_000;
      BufferChain(amount, aum, supply, base, burned, floor);
      DivAtLeast(burned * aum, supply, floor);
    } else if amount != 0 {
      assert Portion(burned, aum, supply) == 0 by {
        if supply != 0 { DivBounds(burned * aum, supply); }
      }
    }
  }

  lemma BufferChain(amount: nat, aum: nat, supply: nat, base: nat, burned: nat, floor: nat)
    requires amount * supply <= base * aum && base * 10_100 <= burned * 10_000 && floor * 10_000 <= amount * 10_100
    ensures floor * supply <= burned * aum
  {
    MulMono(floor * 10_000, amount * 10_100, supply);
    assert floor * 10_000 * supply == (floor * supply) * 10_000;
    assert amount * 10_100 * supply == (amount * supply) * 10_100;
    MulMono(base * 10_100, burned * 10_000, aum);
    assert base * 10_100 * aum == (base * aum) * 10_100;
    assert burned * 10_000 * aum == (burned * aum) * 10_000;
  }

  /**
   What the deposit guard protects: two tokens above the minimum asked for are worth 95% of the deposit,
   unless there is no rate, when tokens are worth nothing.
   */
  lemma GuardKeepsValue(amount: u64, aum: u128, supply: u64, quoted: u64, minOut: u64)
    requires UsdcToLpFloor(amount, aum, supply) == Ok(quoted)
    requires ApplyBpsFloor(quoted, DEPOSIT_MIN_OUT_BPS) == Ok(minOut)
    ensures amount * 9_500 / 10_000 <= Portion(minOut + 2, aum, supply) <==> Priced(aum, supply) || amount <= 1
  {
    hide UsdcToLpFloor, ApplyBpsFloor;
    QuoteOutcome(amount, aum, supply);
    GuardOutcome(quoted);
    if Priced(aum, supply) {
      DivIsFloor(amount * supply, aum);
      var floor := amount * 9_500 / 10_000;
      GuardChain(amount, aum, supply, quoted, minOut, floor);
      PortionAtLeast(minOut + 2, aum, supply, floor);
    } else {
      assert Portion(minOut + 2, aum, supply) == 0 by {
        if supply != 0 { DivBounds((minOut + 2) * aum, supply); }
      }
    }
  }

  lemma GuardChain(amount: nat, aum: nat, supply: nat, quoted: nat, minOut: nat, floor: nat)
    requires amount * supply <= (quoted + 1) * aum && quoted * 9_500 <= minOut * 10_000 + 9_999
    requires floor * 10_000 <= amount * 9_500
    ensures floor * supply <= (minOut + 2) * aum
  {
    MulMono(floor * 10_000, amount * 9_500, supply);
    assert floor * 10_000 * supply == (floor * supply) * 10_000;
    assert amount * 9_500 * supply == (amount * supply) * 9_500;
    MulMono((quoted + 1) * 9_500, (minOut + 2) * 10_000, aum);
    assert (quoted + 1) * 9_500 * aum == ((quoted + 1) * aum) * 9_500;
    assert (minOut + 2) * 10_000 * aum == ((minOut + 2) * aum) * 10_000;
  }

  /** One token above the minimum is not enough: a deposit of 1999 at 1000 a token asks for none at all. */
  lemma GuardIsTight()
    ensures UsdcToLpFloor(1999, 1000, 1) == Ok(1) && ApplyBpsFloor(1, DEPOSIT_MIN_OUT_BPS) == Ok(0)
    ensures Portion(0 + 1, 1000, 1) < 1999 * 9_500 / 10_000 <= Portion(0 + 2, 1000, 1)
  {}

  /** Withdrawing an amount burns at least the LP tokens quoted for depositing it. */
  lemma BurnCoversQuote(amount: u64, aum: u128, supply: u64, quoted: u64, base: u64, burned: u64)
    requires UsdcToLpFloor(amount, aum, supply) == Ok(quoted)
    requires UsdcToLpCeil(amount, aum, supply) == Ok(base)
    requires ApplyBpsCeil(base, WITHDRAW_BURN_BUFFER_BPS) == Ok(burned)
    ensures quoted <= base <= burned
  {
    GuardOutcome(base);
    if Priced(aum, supply) && amount != 0 {
      FloorMeaning(amount, supply, aum, quoted);
      CeilMeaning(amount, supply, aum, base);
      MulCancel(quoted, base, aum);
    }
  }

  /** Whether held LP tokens pay for a withdrawal: the buffered burn exists and does not exceed them. */
  predicate Affordable(amount: u64, held: u64, aum: u128, supply: u64) {
    var base := UsdcToLpCeil(amount, aum, supply);
    && base.Ok?
    && var burned := ApplyBpsCeil(base.value, WITHDRAW_BURN_BUFFER_BPS);
       burned.Ok? && burned.value <= held
  }

  /** What is left of held tokens once the one percent buffer is set aside. */
  function Unbuffered(held: u64): u64 {
    held * BPS_DENOMINATOR / WITHDRAW_BURN_BUFFER_BPS
  }

  lemma BufferInverse(base: nat, held: u64)
    ensures (base * 10_100 + 9_999) / 10_000 <= held <==> base <= Unbuffered(held)
  {}

  /**
   Exactly what can be withdrawn: the value of the tokens without their buffer, or without a rate their
   number, as long as the rounding term does not overflow.
   */
  lemma AffordableExactly(amount: u64, held: u64, aum: u128, supply: u64)
    ensures Affordable(amount, held, aum, supply) <==>
            if amount != 0 && Priced(aum, supply)
            then amount <= Portion(Unbuffered(held), aum, supply) && amount * supply + (aum - 1) < TWO_128
            else amount <= Unbuffered(held)
  {
    hide UsdcToLpCeil, ApplyBpsCeil, Portion;
    BurnOutcome(amount, aum, supply);
    var base := UsdcToLpCeil(amount, aum, supply);
    if base.Ok? {
      GuardOutcome(base.value);
      BufferInverse(base.value, held);
      assert Affordable(amount, held, aum, supply) <==> base.value <= Unbuffered(held);
    }
    if amount != 0 && Priced(aum, supply) {
      PortionAtLeast(Unbuffered(held), aum, supply, amount);
      CeilAtMost(amount * supply, aum, Unbuffered(held));
    }
  }

  /**
   The reported value itself can be withdrawn exactly when the buffer's tokens are not worth a unit of
   it, and never once a token is worth at least one unit.
   */
  lemma ReportedValueAffordable(held: u64, aum: u128, supply: u64, value: u64)
    requires LpToUsdcFloor(held, aum, supply) == Ok(value) && value != 0
    ensures Affordable(value, held, aum, supply) <==>
              && Portion(Unbuffered(held), aum, supply) == Portion(held, aum, supply)
              && value * supply + (aum - 1) < TWO_128
    ensures supply <= aum ==> !Affordable(value, held, aum, supply)
  {
    hide UsdcToLpCeil, ApplyBpsCeil, Portion, Affordable;
    ValueOutcome(held, aum, supply);
    AffordableExactly(value, held, aum, supply);
    PortionMono(Unbuffered(held), held, aum, aum, supply);
    if supply <= aum {
      PortionApart(Unbuffered(held), held, aum, supply);
    }
  }

  lemma PortionApart(a: nat, b: nat, aum: nat, supply: nat)
    requires a < b && 0 < supply <= aum
    ensures Portion(a, aum, supply) < Portion(b, aum, supply)
  {
    PortionSuperadditive(a, b - a, aum, supply);
    MulMonoBoth(1, b - a, supply, aum);
    PortionAtLeast(b - a, aum, supply, 1);
  }

  /** At par, withdrawing the reported value of 100 tokens would burn 101 of them. */
  lemma ParValueRefused()
    ensures LpToUsdcFloor(100, 1000, 1000) == Ok(100) && !Affordable(100, 100, 1000, 1000)
  {}

  /** Holders whose LP tokens fit the supply are together owed at most the pool. */
  lemma Solvent(shares: seq<u64>, values: seq<u64>, aum: u128, supply: u64)
    requires |shares| == |values| && Sum(shares) <= supply
    requires forall i | 0 <= i < |shares| :: LpToUsdcFloor(shares[i], aum, supply) == Ok(values[i])
    ensures Sum(values) <= aum
  {
    forall i | 0 <= i < |shares|
      ensures values[i] <= Portion(shares[i], aum, supply)
    {
      ValueOutcome(shares[i], aum, supply);
    }
    PortionsFit(shares, values, aum, supply);
  }
}
