/** Valuing a Drift insurance-fund stake: active shares, plus pending shares clamped to their request. */
module DriftRate {
  import opened Wrappers
  import opened MachineInts
  import opened Arithmetic
  import opened CheckedRatio
  import opened Solvency

  datatype DriftError =
    | InvalidAmount
    | InvalidMint
    | InvalidOwner
    | InvalidProtocolProgram
    | InvalidProtocolAccount
    | InvalidSpotMarket
    | InvalidInsuranceFundStake
    | InvalidUserStats
    | InvalidVault
    | InvalidTokenAccount
    | ProtocolCpiFailed
    | MathOverflow

  datatype Stake = Stake(shares: u128, requestShares: u128, requestValue: u64)

  function SharesToAmount(shares: u128, total: u128, vault: u64): Result<u64, DriftError> {
    if total == 0 then Ok(0) else MulDivFloor(shares, vault, total).OkOr(MathOverflow)
  }

  function Value(stake: Stake, total: u128, vault: u64): Result<u64, DriftError> {
    var active :- CheckedSub128(stake.shares, stake.requestShares).OkOr(MathOverflow);
    var activeValue :- SharesToAmount(active, total, vault);
    var requested :- SharesToAmount(stake.requestShares, total, vault);
    var pendingValue := if requested < stake.requestValue then requested else stake.requestValue;
    CheckedAdd64(activeValue, pendingValue).OkOr(MathOverflow)
  }

  /** Shares are worth their portion of the vault, refused exactly when product or portion overflow. */
  lemma AmountOutcome(shares: u128, total: u128, vault: u64)
    ensures var exact := Portion(shares, vault, total);
            && (SharesToAmount(shares, total, vault) ==
                if total != 0 && (TWO_128 <= shares * vault || TWO_64 <= exact) then Err(MathOverflow) else Ok(exact))
            && (total < TWO_64 ==>
                  SharesToAmount(shares, total, vault) == if TWO_64 <= exact then Err(MathOverflow) else Ok(exact))
  {
    if total != 0 {
      FloorFailure(shares, vault, total);
      if MulDivFloor(shares, vault, total).Some? {
        FloorMeaning(shares, vault, total, MulDivFloor(shares, vault, total).value);
      }
      if total < TWO_64 {
        FloorFailsOnlyOnLargeQuotient(shares, vault, total);
      }
    }
  }

  function Min(a: nat, b: nat): nat {
    if a < b then a else b
  }

  lemma ValueParts(stake: Stake, total: u128, vault: u64, value: u64)
    requires Value(stake, total, vault) == Ok(value)
    ensures stake.requestShares <= stake.shares
    ensures value == Portion(stake.shares - stake.requestShares, vault, total)
                     + Min(Portion(stake.requestShares, vault, total), stake.requestValue)
  {
    hide SharesToAmount, Portion;
    AmountOutcome(stake.shares - stake.requestShares, total, vault);
    AmountOutcome(stake.requestShares, total, vault);
  }

  /** The value is at most the stake's portion, and one short of it at worst while the clamp is idle. */
  lemma ValueBounds(stake: Stake, total: u128, vault: u64, value: u64)
    requires Value(stake, total, vault) == Ok(value)
    ensures value <= Portion(stake.shares, vault, total)
    ensures Portion(stake.requestShares, vault, total) <= stake.requestValue ==>
              Portion(stake.shares, vault, total) <= value + 1
  {
    ValueParts(stake, total, vault, value);
    var active := stake.shares - stake.requestShares;
    if total != 0 {
      assert stake.shares * vault == active * vault + stake.requestShares * vault;
      DivSuperadditive(active * vault, stake.requestShares * vault, total);
    }
  }

  lemma ValueMono(stake: Stake, total: u128, vault: u64, vault': u64, value: u64, value': u64)
    requires Value(stake, total, vault) == Ok(value) && Value(stake, total, vault') == Ok(value') && vault <= vault'
    ensures value <= value'
  {
    ValueParts(stake, total, vault, value);
    ValueParts(stake, total, vault', value');
    PortionMono(stake.shares - stake.requestShares, stake.shares - stake.requestShares, vault, vault', total);
    PortionMono(stake.requestShares, stake.requestShares, vault, vault', total);
  }

  /** Exactly when valuing fails, for every stake, total and vault. */
  lemma ValueFailure(stake: Stake, total: u128, vault: u64)
    ensures Value(stake, total, vault).Err? <==>
            || stake.shares < stake.requestShares
            || (total != 0
                && var (active, requested) := (stake.shares - stake.requestShares, stake.requestShares);
                || TWO_128 <= active * vault || TWO_128 <= requested * vault
                || TWO_64 <= Portion(requested, vault, total)
                || TWO_64 <= Portion(active, vault, total) + Min(Portion(requested, vault, total), stake.requestValue))
  {
    hide SharesToAmount, Portion;
    if stake.requestShares <= stake.shares {
      AmountOutcome(stake.shares - stake.requestShares, total, vault);
      AmountOutcome(stake.requestShares, total, vault);
      NoTotal(stake.shares - stake.requestShares, vault);
      NoTotal(stake.requestShares, vault);
    }
  }

  lemma NoTotal(shares: nat, vault: nat)
    ensures Portion(shares, vault, 0) == 0
  {}

  /** A stake within the total fails only on a request above its shares or an overflowing product. */
  lemma ValueFailureWithinTotal(stake: Stake, total: u128, vault: u64)
    requires stake.shares <= total
    ensures Value(stake, total, vault).Err? <==>
            || stake.shares < stake.requestShares
            || TWO_128 <= (stake.shares - stake.requestShares) * vault
            || TWO_128 <= stake.requestShares * vault
    ensures stake.requestShares <= stake.shares < TWO_64 ==> Value(stake, total, vault).Ok?
  {
    hide SharesToAmount, Portion;
    if stake.requestShares <= stake.shares {
      var active := stake.shares - stake.requestShares;
      AmountOutcome(active, total, vault);
      AmountOutcome(stake.requestShares, total, vault);
      PortionSuperadditive(active, stake.requestShares, vault, total);
      PortionWithinAmount(stake.shares, vault, total);
      if stake.shares < TWO_64 {
        MulMonoBoth(active, TWO_64 - 1, vault, TWO_64 - 1);
        MulMonoBoth(stake.requestShares, TWO_64 - 1, vault, TWO_64 - 1);
      }
    }
  }

  /** Stakers whose shares fit the total are together owed at most the vault, pending part included. */
  lemma Solvent(stakes: seq<Stake>, shares: seq<u128>, values: seq<u64>, total: u128, vault: u64)
    requires |stakes| == |shares| == |values| && Sum(shares) <= total
    requires forall i | 0 <= i < |stakes| ::
               stakes[i].shares == shares[i] && Value(stakes[i], total, vault) == Ok(values[i])
    ensures Sum(values) <= vault
  {
    forall i | 0 <= i < |shares|
      ensures values[i] <= Portion(shares[i], vault, total)
    {
      ValueBounds(stakes[i], total, vault, values[i]);
    }
    PortionsFit(shares, values, vault, total);
  }
}
