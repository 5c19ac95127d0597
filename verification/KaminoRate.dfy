/** Kamino's exchange rate between collateral tokens and liquidity. */
module KaminoRate {
  import opened Wrappers
  import opened MachineInts
  import opened Arithmetic
  import opened CheckedRatio
  import opened Solvency
  import opened Bytes

  datatype KaminoError =
    | InvalidAmount
    | InvalidMint
    | InvalidOwner
    | InvalidProtocolProgram
    | InvalidProtocolAccount
    | InvalidReserve
    | InvalidLendingMarket
    | InvalidVault
    | InvalidTokenAccount
    | InvalidInstructionSysvar
    | ProtocolCpiFailed
    | MathOverflow

  datatype ReserveFields = ReserveFields(
    lendingMarket: Pubkey,
    liquidityMint: Pubkey,
    liquiditySupply: Pubkey,
    liquidityTokenProgram: Pubkey,
    totalAvailable: u64,
    borrowedSf: u128,
    protocolFeesSf: u128,
    referrerFeesSf: u128,
    pendingReferrerFeesSf: u128,
    collateralMint: Pubkey,
    collateralSupply: u64
  )

  const FRACTION_ONE := 0x1000_0000_0000_0000

  function ScaledFractionFloor(value: u128): u128 {
    value / FRACTION_ONE
  }

  function TotalSupply(fields: ReserveFields): Result<u128, KaminoError> {
    var gross :- CheckedAdd128(fields.totalAvailable, ScaledFractionFloor(fields.borrowedSf)).OkOr(MathOverflow);
    var afterProtocol :- CheckedSub128(gross, ScaledFractionFloor(fields.protocolFeesSf)).OkOr(MathOverflow);
    var afterReferrer :- CheckedSub128(afterProtocol, ScaledFractionFloor(fields.referrerFeesSf)).OkOr(MathOverflow);
    CheckedSub128(afterReferrer, ScaledFractionFloor(fields.pendingReferrerFeesSf)).OkOr(MathOverflow)
  }

  function CollateralToLiquidity(collateral: u64, fields: ReserveFields): Result<u64, KaminoError> {
    var total :- TotalSupply(fields);
    if fields.collateralSupply == 0 || total == 0 then Ok(collateral)
    else MulDivFloor(collateral, total, fields.collateralSupply).OkOr(MathOverflow)
  }

  function LiquidityToCollateralCeil(amount: u64, fields: ReserveFields): Result<u64, KaminoError> {
    var total :- TotalSupply(fields);
    if fields.collateralSupply == 0 || total == 0 then Ok(amount)
    else MulDivCeil(amount, fields.collateralSupply, total).OkOr(MathOverflow)
  }

  /** Scaled fractions count in units of `2^60`. */
  function Assets(fields: ReserveFields): nat {
    fields.totalAvailable + fields.borrowedSf / 1_152_921_504_606_846_976
  }

  function Fees(fields: ReserveFields): nat {
    fields.protocolFeesSf / 1_152_921_504_606_846_976 + fields.referrerFeesSf / 1_152_921_504_606_846_976
    + fields.pendingReferrerFeesSf / 1_152_921_504_606_846_976
  }

  /** What the reserve is worth, when its fees do not exceed its assets. */
  function Supply(fields: ReserveFields): nat {
    if Fees(fields) <= Assets(fields) then Assets(fields) - Fees(fields) else 0
  }

  /** Whether tokens are converted at a rate rather than one for one. */
  predicate Priced(fields: ReserveFields) {
    Supply(fields) != 0 && fields.collateralSupply != 0
  }

  /** What collateral tokens are worth: their portion of the supply, or one each without a rate. */
  function Worth(collateral: u64, fields: ReserveFields): nat {
    if Priced(fields) then Portion(collateral, Supply(fields), fields.collateralSupply) else collateral
  }

  /** The supply is assets less fees; it is refused exactly when the fees exceed the assets. */
  lemma TotalSupplyOutcome(fields: ReserveFields)
    ensures TotalSupply(fields) == if Fees(fields) <= Assets(fields) then Ok(Supply(fields)) else Err(MathOverflow)
    ensures Assets(fields) < 17 * TWO_64
  {}

  /** The value for every reserve: one for one without a rate, else refused exactly when it does not fit. */
  lemma ValueOutcome(collateral: u64, fields: ReserveFields)
    ensures CollateralToLiquidity(collateral, fields) ==
            var exact := Worth(collateral, fields);
            if Assets(fields) < Fees(fields) || TWO_64 <= exact then Err(MathOverflow) else Ok(exact)
  {
    hide MulDivFloor, Portion, Assets, Fees;
    TotalSupplyOutcome(fields);
    if Fees(fields) <= Assets(fields) && Priced(fields) {
      FloorOutcome(collateral, Supply(fields), fields.collateralSupply);
    }
  }

  lemma FloorOutcome(collateral: u64, total: u128, supply: u64)
    requires total != 0 && supply != 0
    ensures MulDivFloor(collateral, total, supply) ==
            var exact := Portion(collateral, total, supply);
            if TWO_64 <= exact then None else Some(exact)
  {
    FloorFailsOnlyOnLargeQuotient(collateral, total, supply);
    if MulDivFloor(collateral, total, supply).Some? {
      FloorMeaning(collateral, total, supply, MulDivFloor(collateral, total, supply).value);
    }
  }

  /**
   The collateral burned for every reserve: one for one without a rate, else the exact quotient rounded
   up. That direction can also fail by overflowing the rounding term, but not below a supply of `2^65`.
   */
  lemma BurnOutcome(amount: u64, fields: ReserveFields)
    ensures var (total, supply) := (Supply(fields), fields.collateralSupply);
            LiquidityToCollateralCeil(amount, fields).Err? <==>
              || Assets(fields) < Fees(fields)
              || (Priced(fields) && TWO_128 <= amount * supply + (total - 1))
              || (Priced(fields) && TWO_64 <= (amount * supply + (total - 1)) / total)
    ensures var (total, supply) := (Supply(fields), fields.collateralSupply);
            Fees(fields) <= Assets(fields) && total < 2 * TWO_64 ==>
              (LiquidityToCollateralCeil(amount, fields).Err? <==>
               Priced(fields) && TWO_64 <= (amount * supply + (total - 1)) / total)
    ensures var burned := LiquidityToCollateralCeil(amount, fields);
            burned.Ok? ==>
              if Priced(fields)
              then forall r: nat :: burned.value <= r <==> amount * fields.collateralSupply <= r * Supply(fields)
              else burned.value == amount
  {
    hide MulDivCeil, Assets, Fees;
    TotalSupplyOutcome(fields);
    if Fees(fields) <= Assets(fields) && Priced(fields) {
      var (total, supply) := (Supply(fields), fields.collateralSupply);
      CeilFailure(amount, supply, total);
      if MulDivCeil(amount, supply, total).Some? {
        CeilMeaning(amount, supply, total, MulDivCeil(amount, supply, total).value);
      }
      if total < 2 * TWO_64 {
        CeilFailsOnlyOnLargeQuotient(amount, supply, total);
      }
    }
  }

  /** A reserve whose supply is exactly `2^65`, where a burn of `2^63` tokens is refused. */
  lemma SpuriousBurnFailure(key: Pubkey) returns (fields: ReserveFields)
    ensures TotalSupply(fields) == Ok(2 * TWO_64)
    ensures ((TWO_64 - 1) * fields.collateralSupply + (2 * TWO_64 - 1)) / (2 * TWO_64) == TWO_64 / 2
    ensures LiquidityToCollateralCeil(TWO_64 - 1, fields) == Err(MathOverflow)
  {
    fields := ReserveFields(key, key, key, key, 0, 2 * TWO_64 * FRACTION_ONE, 0, 0, 0, key, TWO_64 - 1);
    assert (TWO_64 - 1) * (TWO_64 - 1) == TWO_128 - 2 * TWO_64 + 1;
  }

  /** The two directions are adjoint: enough value is enough collateral, and the other way round. */
  lemma Adjoint(amount: u64, collateral: u64, fields: ReserveFields, value: u64, burned: u64)
    requires CollateralToLiquidity(collateral, fields) == Ok(value)
    requires LiquidityToCollateralCeil(amount, fields) == Ok(burned)
    ensures amount <= value <==> burned <= collateral
  {
    var total, supply := TotalSupply(fields).value, fields.collateralSupply;
    if supply != 0 && total != 0 {
      FloorMeaning(collateral, total, supply, value);
      CeilMeaning(amount, supply, total, burned);
      assert amount <= value <==> amount * supply <= collateral * total;
    }
  }

  /** A withdrawal burns the least collateral worth the request, and overshoots it by a bounded amount. */
  lemma LeastBurn(amount: u64, fields: ReserveFields, burned: u64, value: u64)
    requires LiquidityToCollateralCeil(amount, fields) == Ok(burned)
    requires CollateralToLiquidity(burned, fields) == Ok(value)
    ensures amount <= value
    ensures forall less: u64 | less < burned && CollateralToLiquidity(less, fields).Ok? ::
              CollateralToLiquidity(less, fields).value < amount
    ensures var total := TotalSupply(fields).value;
            if total == 0 || fields.collateralSupply == 0 then value == amount
            else value - amount <= (total - 1) / fields.collateralSupply
  {
    Adjoint(amount, burned, fields, value, burned);
    forall less: u64 | less < burned && CollateralToLiquidity(less, fields).Ok?
      ensures CollateralToLiquidity(less, fields).value < amount
    {
      Adjoint(amount, less, fields, CollateralToLiquidity(less, fields).value, burned);
    }
    var total, supply := TotalSupply(fields).value, fields.collateralSupply;
    if supply != 0 && total != 0 {
      Overshoot(amount, burned, total, supply);
      FloorMeaning(burned, total, supply, value);
    }
  }

  /**
   Held collateral pays for an amount exactly when its reported value is at least that amount, so the
   value reported is the most that can be withdrawn; only the rounding term can get in the way, and not
   below a supply of `2^65`.
   */
  lemma Withdrawable(amount: u64, held: u64, fields: ReserveFields, value: u64)
    requires CollateralToLiquidity(held, fields) == Ok(value)
    ensures var burned := LiquidityToCollateralCeil(amount, fields);
            burned.Ok? && burned.value <= held <==>
              amount <= value && !(Priced(fields) && TWO_128 <= amount * fields.collateralSupply + (Supply(fields) - 1))
    ensures amount <= value && Supply(fields) < 2 * TWO_64 ==> LiquidityToCollateralCeil(amount, fields).Ok?
  {
    hide TotalSupply, Portion, LiquidityToCollateralCeil, CollateralToLiquidity, Assets, Fees;
    ValueOutcome(held, fields);
    BurnOutcome(amount, fields);
    if Priced(fields) {
      var (total, supply) := (Supply(fields), fields.collateralSupply);
      PortionAtLeast(held, total, supply, amount);
      CeilAtMost(amount * supply, total, held);
    }
  }

  lemma Overshoot(amount: u64, burned: u64, total: u128, supply: u64)
    requires 0 < total && 0 < supply && MulDivCeil(amount, supply, total) == Some(burned)
    ensures burned * total / supply <= amount + (total - 1) / supply
  {
    MulMono(0, amount, supply);
    DivIsFloor(amount * supply + (total - 1), total);
    DivMono(burned * total, (total - 1) + amount * supply, supply);
    DivAddMultiple(total - 1, amount, supply);
  }

  /**
   Holders whose collateral fits the mint's supply are owed at most the reserve's supply, unless that
   supply is zero: then each is still credited one for one, and only empty holders are covered.
   */
  lemma SolventExactly(shares: seq<u64>, values: seq<u64>, fields: ReserveFields, total: u128)
    requires TotalSupply(fields) == Ok(total)
    requires |shares| == |values| && Sum(shares) <= fields.collateralSupply
    requires forall i | 0 <= i < |shares| :: CollateralToLiquidity(shares[i], fields) == Ok(values[i])
    ensures Sum(values) <= total <==> total != 0 || Sum(shares) == 0
  {
    if fields.collateralSupply == 0 || total == 0 {
      assert shares == values;
    } else {
      forall i | 0 <= i < |shares|
        ensures values[i] <= Portion(shares[i], total, fields.collateralSupply)
      {
        FloorMeaning(shares[i], total, fields.collateralSupply, values[i]);
      }
      PortionsFit(shares, values, total, fields.collateralSupply);
    }
  }

  /** A reserve that owes its holder one token and has none. */
  lemma EmptyReserveOwes(key: Pubkey) returns (fields: ReserveFields)
    ensures TotalSupply(fields) == Ok(0) && fields.collateralSupply == 1
    ensures CollateralToLiquidity(1, fields) == Ok(1)
  {
    fields := ReserveFields(key, key, key, key, 0, 0, 0, 0, 0, key, 1);
  }
}
