/** The Drift adapter: deposits stake, withdrawals only request removal. */
module DriftInsuranceFund {
  import opened Wrappers
  import opened MachineInts
  import opened Bytes
  import opened Accounts
  import opened Pda
  import opened NetDeposits
  import opened Solvency
  import opened DriftRate

  const ADD_STAKE_DISCRIMINATOR: seq<u8> := [251, 144, 115, 11, 222, 47, 62, 236]
  const REQUEST_REMOVE_DISCRIMINATOR: seq<u8> := [142, 70, 204, 92, 73, 106, 180, 52]
  const STAKE_AUTHORITY_OFFSET := 8
  const STAKE_SHARES_OFFSET := 40
  const STAKE_REQUEST_SHARES_OFFSET := 56
  const STAKE_REQUEST_VALUE_OFFSET := 96
  const STAKE_MARKET_INDEX_OFFSET := 120
  const SPOT_MARKET_PUBKEY_OFFSET := 8
  const SPOT_MARKET_MINT_OFFSET := 72
  const SPOT_MARKET_VAULT_OFFSET := 104
  const SPOT_MARKET_IF_VAULT_OFFSET := 304
  const SPOT_MARKET_TOTAL_SHARES_OFFSET := 336

  datatype Context = Context(
    owner: Pubkey,
    mint: Pubkey,
    program: Pubkey,
    state: Pubkey,
    spotMarket: Pubkey,
    stake: Pubkey,
    userStats: Pubkey,
    spotMarketVault: Pubkey,
    vault: Pubkey,
    signer: Pubkey,
    userToken: Pubkey,
    tokenProgram: Pubkey
  )

  datatype Keys = Keys(owner: Pubkey, stake: Pubkey, userStats: Pubkey, marketIndex: u16)

  function RequestData(discriminator: seq<u8>, marketIndex: u16, amount: u64): seq<u8> {
    discriminator + LeBytes16(marketIndex) + LeBytes64(amount)
  }

  lemma RequestBytes(discriminator: seq<u8>, marketIndex: u16, amount: u64)
    requires |discriminator| == 8
    ensures var data := RequestData(discriminator, marketIndex, amount);
            && |data| == 18 && data[..8] == discriminator
            && ReadU16(data, 8) == Some(marketIndex) && ReadU64(data, 10) == Some(amount)
  {
    hide LeBytes16, LeBytes64, LeValue, Pow256;
    var data := RequestData(discriminator, marketIndex, amount);
    AppendedField(discriminator + LeBytes16(marketIndex), LeBytes64(amount), data);
    AppendedField(discriminator, LeBytes16(marketIndex), data);
  }

  /** The three kinds of derived accounts never share seeds, and each kind's seeds name owner and market. */
  lemma SeedsDiffer(owner: Pubkey, owner': Pubkey, market: u16, market': u16)
    ensures StakeSeeds(owner, market) == StakeSeeds(owner', market') <==> owner == owner' && market == market'
    ensures SpotMarketSeeds(market) == SpotMarketSeeds(market') <==> market == market'
    ensures VaultSeeds(market) == VaultSeeds(market') <==> market == market'
    ensures StakeSeeds(owner, market)[..20] == Ascii("insurance_fund_stake")
    ensures SpotMarketSeeds(market)[..11] == Ascii("spot_market")
    ensures VaultSeeds(market)[..20] == Ascii("insurance_fund_vault")
    ensures SpotMarketSeeds(market) != VaultSeeds(market') && StakeSeeds(owner, market) != VaultSeeds(market')
    ensures SpotMarketSeeds(market) != StakeSeeds(owner, market')
  {
    hide Ascii;
    var (n, m) := (LeBytes16(market), LeBytes16(market'));
    assert LeValue(n) == market && LeValue(m) == market';
    assert StakeSeeds(owner, market)[20..52] == owner && StakeSeeds(owner', market')[20..52] == owner';
    assert StakeSeeds(owner, market)[52..] == n && StakeSeeds(owner', market')[52..] == m;
    assert SpotMarketSeeds(market)[11..] == n && SpotMarketSeeds(market')[11..] == m;
    assert VaultSeeds(market)[20..] == n && VaultSeeds(market')[20..] == m;
  }

  function StakeSeeds(owner: Pubkey, marketIndex: u16): seq<u8> {
    Ascii("insurance_fund_stake") + owner + LeBytes16(marketIndex)
  }

  function SpotMarketSeeds(marketIndex: u16): seq<u8> {
    Ascii("spot_market") + LeBytes16(marketIndex)
  }

  function VaultSeeds(marketIndex: u16): seq<u8> {
    Ascii("insurance_fund_vault") + LeBytes16(marketIndex)
  }

  function CheckOwnerAndMint(config: AdapterConfig, keys: Keys, ctx: Context): Result<(), DriftError> {
    if ctx.mint != config.supportedMint then Err(InvalidMint)
    else if ctx.owner != keys.owner then Err(InvalidOwner)
    else Ok(())
  }

  function CheckStakeData(keys: Keys, stake: seq<u8>): Result<(), DriftError> {
    if |stake| < STAKE_AUTHORITY_OFFSET + 32 then Err(InvalidProtocolAccount)
    else if !KeyIs(stake, STAKE_AUTHORITY_OFFSET, keys.owner) then Err(InvalidOwner)
    else
      var marketIndex :- ReadU16(stake, STAKE_MARKET_INDEX_OFFSET).OkOr(InvalidProtocolAccount);
      if marketIndex != keys.marketIndex then Err(InvalidInsuranceFundStake) else Ok(())
  }

  function CheckSpotData(config: AdapterConfig, ctx: Context, spot: seq<u8>): Result<(), DriftError> {
    if |spot| < SPOT_MARKET_PUBKEY_OFFSET + 32 then Err(InvalidProtocolAccount)
    else if !KeyIs(spot, SPOT_MARKET_PUBKEY_OFFSET, ctx.spotMarket) then Err(InvalidSpotMarket)
    else if |spot| < SPOT_MARKET_MINT_OFFSET + 32 then Err(InvalidProtocolAccount)
    else if !KeyIs(spot, SPOT_MARKET_MINT_OFFSET, config.supportedMint) then Err(InvalidMint)
    else if |spot| < SPOT_MARKET_IF_VAULT_OFFSET + 32 then Err(InvalidProtocolAccount)
    else if !KeyIs(spot, SPOT_MARKET_IF_VAULT_OFFSET, ctx.vault) then Err(InvalidVault)
    else Ok(())
  }

  function CheckCommonAccounts(derive: Deriver, config: AdapterConfig, keys: Keys, ctx: Context, accounts: Accounts,
                               withStats: bool): Result<(), DriftError> {
    var program := config.protocolProgramId;
    if Lookup(accounts, ctx.spotMarket).owner != ctx.program then Err(InvalidProtocolAccount)
    else if Lookup(accounts, ctx.stake).owner != ctx.program then Err(InvalidProtocolAccount)
    else if withStats && Lookup(accounts, ctx.userStats).owner != ctx.program then Err(InvalidProtocolAccount)
    else if withStats && ctx.userStats != keys.userStats then Err(InvalidUserStats)
    else if !IsFound(derive, program, SpotMarketSeeds(keys.marketIndex), ctx.spotMarket) then Err(InvalidSpotMarket)
    else if ctx.stake != keys.stake then Err(InvalidInsuranceFundStake)
    else if !IsFound(derive, program, StakeSeeds(keys.owner, keys.marketIndex), ctx.stake)
    then Err(InvalidInsuranceFundStake)
    else
      var _ :- CheckStakeData(keys, Lookup(accounts, ctx.stake).data);
      var _ :- CheckSpotData(config, ctx, Lookup(accounts, ctx.spotMarket).data);
      if !IsFound(derive, program, VaultSeeds(keys.marketIndex), ctx.vault) then Err(InvalidVault) else Ok(())
  }

  function CheckDepositTokens(derive: Deriver, config: AdapterConfig, ctx: Context, accounts: Accounts)
    : Result<(), DriftError> {
    var spot := Lookup(accounts, ctx.spotMarket).data;
    var vault := Lookup(accounts, ctx.vault);
    if |spot| < SPOT_MARKET_VAULT_OFFSET + 32 then Err(InvalidProtocolAccount)
    else if !KeyIs(spot, SPOT_MARKET_VAULT_OFFSET, ctx.spotMarketVault) then Err(InvalidVault)
    else if !IsFound(derive, config.protocolProgramId, Ascii("drift_signer"), ctx.signer) then Err(InvalidVault)
    else
      var _ :- CheckTokenAccount(Lookup(accounts, ctx.userToken), ctx.tokenProgram, config.supportedMint, ctx.owner,
                                 InvalidProtocolAccount, InvalidTokenAccount);
      if vault.owner != ctx.tokenProgram then Err(InvalidTokenAccount)
      else if |vault.data| < TOKEN_ACCOUNT_MINT_OFFSET + 32 then Err(InvalidProtocolAccount)
      else if !KeyIs(vault.data, TOKEN_ACCOUNT_MINT_OFFSET, config.supportedMint) then Err(InvalidTokenAccount)
      else Ok(())
  }

  function CheckDeposit(derive: Deriver, config: AdapterConfig, keys: Keys, ctx: Context, accounts: Accounts,
                        amount: u64): Result<(), DriftError> {
    if amount == 0 then Err(InvalidAmount) else
      var _ :- CheckOwnerAndMint(config, keys, ctx);
      if ctx.program != config.protocolProgramId then Err(InvalidProtocolProgram)
      else if Lookup(accounts, ctx.state).owner != ctx.program then Err(InvalidProtocolAccount)
      else
        var _ :- CheckCommonAccounts(derive, config, keys, ctx, accounts, true);
        CheckDepositTokens(derive, config, ctx, accounts)
  }

  function CheckWithdraw(derive: Deriver, config: AdapterConfig, keys: Keys, ctx: Context, accounts: Accounts,
                         amount: u64): Result<(), DriftError> {
    if amount == 0 then Err(InvalidAmount) else
      var _ :- CheckOwnerAndMint(config, keys, ctx);
      if ctx.program != config.protocolProgramId then Err(InvalidProtocolProgram)
      else CheckCommonAccounts(derive, config, keys, ctx, accounts, true)
  }

  function CheckValue(derive: Deriver, config: AdapterConfig, keys: Keys, ctx: Context, accounts: Accounts)
    : Result<(), DriftError> {
    var _ :- CheckOwnerAndMint(config, keys, ctx);
    if ctx.program != config.protocolProgramId then Err(InvalidProtocolProgram)
    else CheckCommonAccounts(derive, config, keys, ctx, accounts, false)
  }

  function ReadStake(stake: seq<u8>): Result<Stake, DriftError> {
    var shares :- ReadU128(stake, STAKE_SHARES_OFFSET).OkOr(InvalidProtocolAccount);
    var requestShares :- ReadU128(stake, STAKE_REQUEST_SHARES_OFFSET).OkOr(InvalidProtocolAccount);
    var requestValue :- ReadU64(stake, STAKE_REQUEST_VALUE_OFFSET).OkOr(InvalidProtocolAccount);
    Ok(Stake(shares, requestShares, requestValue))
  }

  /** Shares and value, with the narrowing of the shares that every instruction applies to them. */
  function PositionValue(stakeAccount: Account, spotMarket: Account, vault: Account): Result<(u64, u64), DriftError> {
    var stake :- ReadStake(stakeAccount.data);
    var total :- ReadU128(spotMarket.data, SPOT_MARKET_TOTAL_SHARES_OFFSET).OkOr(InvalidProtocolAccount);
    var vaultAmount :- ReadTokenAmount(vault, InvalidProtocolAccount);
    var value :- Value(stake, total, vaultAmount);
    var shares :- NarrowTo64(stake.shares).OkOr(MathOverflow);
    Ok((shares, value))
  }

  /** The stake bytes around the fields that are read. */
  datatype Gaps = Gaps(toShares: seq<u8>, toValue: seq<u8>) {
    ghost predicate Fit() {
      |toShares| == 40 && |toValue| == 24
    }
  }

  ghost function EncodeStake(stake: Stake, gaps: Gaps): (s: seq<u8>)
    requires gaps.Fit()
    ensures |s| == 104
  {
    gaps.toShares + LeBytes128(stake.shares) + LeBytes128(stake.requestShares) + gaps.toValue
    + LeBytes64(stake.requestValue)
  }

  lemma StakeRoundTrip(stake: Stake, gaps: Gaps, tail: seq<u8>)
    requires gaps.Fit()
    ensures ReadStake(EncodeStake(stake, gaps) + tail) == Ok(stake)
    ensures forall cut | 0 <= cut < 104 :: ReadStake(EncodeStake(stake, gaps)[..cut]) == Err(InvalidProtocolAccount)
  {
    hide LeBytes64, LeBytes128, LeValue, Pow256, Slice;
    var data := EncodeStake(stake, gaps) + tail;
    var p2 := gaps.toShares + LeBytes128(stake.shares);
    var p3 := p2 + LeBytes128(stake.requestShares);
    var p4 := p3 + gaps.toValue;
    AppendedField(p4, LeBytes64(stake.requestValue), data);
    AppendedField(p3, gaps.toValue, data);
    AppendedField(p2, LeBytes128(stake.requestShares), data);
    AppendedField(gaps.toShares, LeBytes128(stake.shares), data);
  }

  /** A pair of shares and value as stake, market and vault have it: active portion plus clamped request. */
  predicate Reports(stakeAccount: Account, spotMarket: Account, vaultAccount: Account, shares: u64, value: u64) {
    var (stake, total) := (ReadStake(stakeAccount.data), ReadU128(spotMarket.data, 336));
    var vault := ReadU64(vaultAccount.data, 64);
    && stake.Ok? && total.Some? && vault.Some? && shares == stake.value.shares
    && stake.value.requestShares <= stake.value.shares
    && value == Portion(stake.value.shares - stake.value.requestShares, vault.value, total.value)
                + Min(Portion(stake.value.requestShares, vault.value, total.value), stake.value.requestValue)
  }

  lemma PositionReports(stake: Account, spotMarket: Account, vault: Account, shares: u64, value: u64)
    requires PositionValue(stake, spotMarket, vault) == Ok((shares, value))
    ensures Reports(stake, spotMarket, vault, shares, value)
  {
    hide ReadStake, ReadU128, ReadU64, Value, Portion;
    ValueParts(ReadStake(stake.data).value, ReadU128(spotMarket.data, 336).value, ReadU64(vault.data, 64).value, value);
  }

  /** From encoded accounts to the value: what each of the three accounts contributes. */
  lemma EncodedPositionValue(stake: Stake, gaps: Gaps, tail: seq<u8>, market: seq<u8>, total: u128, marketTail: seq<u8>,
                             token: seq<u8>, vault: u64, tokenTail: seq<u8>, program: Pubkey)
    requires gaps.Fit() && |market| == 336 && |token| == 64
    ensures PositionValue(Account(program, EncodeStake(stake, gaps) + tail),
                          Account(program, market + LeBytes128(total) + marketTail),
                          Account(program, token + LeBytes64(vault) + tokenTail)) ==
            (var value :- Value(stake, total, vault);
             if stake.shares < TWO_64 then Ok((stake.shares, value)) else Err(MathOverflow))
  {
    hide LeBytes64, LeBytes128, LeValue, Pow256, Slice, EncodeStake, ReadStake, Value;
    StakeRoundTrip(stake, gaps, tail);
    AppendedField(market, LeBytes128(total), market + LeBytes128(total) + marketTail);
    AppendedField(token, LeBytes64(vault), token + LeBytes64(vault) + tokenTail);
  }

  /** The three accounts a position is valued from, two of them derived from its market. */
  ghost function Sources(derive: Deriver, config: AdapterConfig, keys: Keys, accounts: Accounts)
    : Option<(Account, Account, Account)> {
    var spot :- Find(derive, config.protocolProgramId, SpotMarketSeeds(keys.marketIndex));
    var vault :- Find(derive, config.protocolProgramId, VaultSeeds(keys.marketIndex));
    Some((Lookup(accounts, keys.stake), Lookup(accounts, spot.0), Lookup(accounts, vault.0)))
  }

  /** Valuing those accounts; the checks have already refused markets without derivable addresses. */
  ghost function StoredValue(derive: Deriver, config: AdapterConfig, keys: Keys, accounts: Accounts)
    : Result<(u64, u64), DriftError> {
    match Sources(derive, config, keys, accounts)
    case Some(sources) => PositionValue(sources.0, sources.1, sources.2)
    case None => Err(InvalidSpotMarket)
  }

  lemma ChecksUseSources(derive: Deriver, config: AdapterConfig, keys: Keys, ctx: Context, before: Accounts,
                         amount: u64, accounts: Accounts)
    requires || CheckDeposit(derive, config, keys, ctx, before, amount).Ok?
             || CheckWithdraw(derive, config, keys, ctx, before, amount).Ok?
             || CheckValue(derive, config, keys, ctx, before).Ok?
    ensures Sources(derive, config, keys, accounts) ==
            Some((Lookup(accounts, ctx.stake), Lookup(accounts, ctx.spotMarket), Lookup(accounts, ctx.vault)))
    ensures CheckDeposit(derive, config, keys, ctx, before, amount).Ok? ==> 0 < amount
    ensures CheckWithdraw(derive, config, keys, ctx, before, amount).Ok? ==> 0 < amount
  {
    hide CheckStakeData, CheckSpotData, CheckDepositTokens, SpotMarketSeeds, VaultSeeds, StakeSeeds, Find;
  }

  /** Withdrawals never lower the deposit counter of this adapter: it only ever adds deposits up. */
  function TotalDeposited(ops: seq<Op>): nat {
    if ops == [] then 0 else
      TotalDeposited(ops[..|ops| - 1]) + match ops[|ops| - 1] case Deposited(a) => a case Withdrawn(_) => 0
  }

  /** The request still recorded as pending: that of the last operation, if it was a withdrawal. */
  function Pending(ops: seq<Op>): u64 {
    if ops == [] then 0 else match ops[|ops| - 1] case Deposited(_) => 0 case Withdrawn(a) => a
  }

  /** What all requests together asked for. */
  function Requested(ops: seq<Op>): nat {
    if ops == [] then 0 else
      Requested(ops[..|ops| - 1]) + match ops[|ops| - 1] case Deposited(_) => 0 case Withdrawn(a) => a
  }

  ghost predicate NothingRequested(ops: seq<Op>) {
    forall i | 0 <= i < |ops| :: ops[i].Withdrawn? ==> ops[i].amount == 0
  }

  lemma {:induction false} RequestedZero(ops: seq<Op>)
    ensures Requested(ops) == 0 <==> NothingRequested(ops)
  {
    if ops == [] {
    } else {
      var front := ops[..|ops| - 1];
      RequestedZero(front);
      assert forall i | 0 <= i < |front| :: front[i] == ops[i];
    }
  }

  /** The pending amount is all that was requested exactly when nothing was requested before the last operation. */
  lemma {:induction false} PendingExactly(ops: seq<Op>)
    ensures Pending(ops) == Requested(ops) <==>
            forall i | 0 <= i < |ops| - 1 :: ops[i].Withdrawn? ==> ops[i].amount == 0
  {
    if ops == [] {
    } else {
      var front := ops[..|ops| - 1];
      RequestedZero(front);
      assert forall i | 0 <= i < |front| :: front[i] == ops[i];
    }
  }

  /** The deposit counter overstates the net deposits by everything that was ever requested. */
  lemma {:induction false} TotalExceedsNet(ops: seq<Op>)
    ensures TotalDeposited(ops) == Net(ops) + Requested(ops)
  {
    if ops == [] {
    } else {
      TotalExceedsNet(ops[..|ops| - 1]);
    }
  }

  lemma TotalExactly(ops: seq<Op>)
    ensures TotalDeposited(ops) == Net(ops) <==>
            forall i | 0 <= i < |ops| :: ops[i].Withdrawn? ==> ops[i].amount == 0
  {
    TotalExceedsNet(ops);
    RequestedZero(ops);
  }

  /** A second request of 3 hides a first one of 5, and so does a deposit; neither lowers the counter. */
  lemma LostRequests()
    ensures var ops := [Withdrawn(5), Withdrawn(3)];
            Pending(ops) == 3 && Requested(ops) == 8 && TotalDeposited(ops) == 0 && Net(ops) == -8
    ensures var ops := [Withdrawn(5), Deposited(1)];
            Pending(ops) == 0 && Requested(ops) == 5 && TotalDeposited(ops) == 1 && Net(ops) == -4
  {
    var (twice, cleared) := ([Withdrawn(5), Withdrawn(3)], [Withdrawn(5), Deposited(1)]);
    assert twice[..1] == cleared[..1] == [Withdrawn(5)] && [Withdrawn(5)][..0] == [];
    assert Requested([Withdrawn(5)]) == 5 && TotalDeposited([Withdrawn(5)]) == 0 && Net([Withdrawn(5)]) == -5;
  }

  lemma RequestedAppend(ops: seq<Op>, op: Op)
    ensures Requested(ops + [op]) == Requested(ops) + match op case Deposited(_) => 0 case Withdrawn(a) => a
  {
    assert (ops + [op])[..|ops|] == ops;
  }

  lemma TotalsAppend(ops: seq<Op>, op: Op)
    ensures TotalDeposited(ops + [op]) == TotalDeposited(ops) + match op case Deposited(a) => a case Withdrawn(_) => 0
    ensures Pending(ops + [op]) == match op case Deposited(_) => 0 case Withdrawn(a) => a
  {
    assert (ops + [op])[..|ops|] == ops;
  }

  class Position {
    const keys: Keys
    var depositedAmount: u64
    var shares: u64
    var lastValue: u64
    var pendingWithdrawAmount: u64

    ghost var history: seq<Op>
    ghost var seen: Option<(Account, Account, Account)>

    ghost predicate Valid()
      reads this
    {
      && TotalDeposited(history) == depositedAmount && Pending(history) == pendingWithdrawAmount
      && (forall i | 0 <= i < |history| :: 0 < history[i].amount)
      && (seen.None? <==> history == [])
      && (seen.None? ==> shares == 0 && lastValue == 0)
      && (seen.Some? ==> PositionValue(seen.value.0, seen.value.1, seen.value.2) == Ok((shares, lastValue)))
    }

    constructor (keys: Keys)
      ensures Valid() && history == [] && this.keys == keys
    {
      this.keys := keys;
      depositedAmount, shares, lastValue, pendingWithdrawAmount := 0, 0, 0, 0;
      history, seen := [], None;
    }

    function AddStakeData(amount: u64): seq<u8> {
      RequestData(ADD_STAKE_DISCRIMINATOR, keys.marketIndex, amount)
    }

    function RequestRemoveData(amount: u64): seq<u8> {
      RequestData(REQUEST_REMOVE_DISCRIMINATOR, keys.marketIndex, amount)
    }

    method Deposit(derive: Deriver, config: AdapterConfig, ctx: Context, before: Accounts, protocol: Protocol,
                   amount: u64) returns (r: Result<(), DriftError>)
      requires Valid()
      modifies this
      ensures Valid()
      ensures r == (var _ :- CheckDeposit(derive, config, keys, ctx, before, amount);
                    var now :- protocol(AddStakeData(amount)).OkOr(ProtocolCpiFailed);
                    var _ :- StoredValue(derive, config, keys, now);
                    var _ :- CheckedAdd64(old(depositedAmount), amount).OkOr(MathOverflow);
                    Ok(()))
      ensures r.Err? ==> unchanged(this)
      ensures r.Ok? ==>
                && depositedAmount == old(depositedAmount) + amount && pendingWithdrawAmount == 0
                && history == old(history) + [Deposited(amount)]
                && seen == Sources(derive, config, keys, protocol(AddStakeData(amount)).value)
                && seen.Some? && Reports(seen.value.0, seen.value.1, seen.value.2, shares, lastValue)
    {
      hide PositionValue, Reports, CheckDeposit, CheckWithdraw, RequestData, Sources, Lookup, TotalDeposited, Pending;
      var _ :- CheckDeposit(derive, config, keys, ctx, before, amount);
      var now :- protocol(AddStakeData(amount)).OkOr(ProtocolCpiFailed);
      ChecksUseSources(derive, config, keys, ctx, before, amount, now);
      var read :- PositionValue(Lookup(now, ctx.stake), Lookup(now, ctx.spotMarket), Lookup(now, ctx.vault));
      PositionReports(Lookup(now, ctx.stake), Lookup(now, ctx.spotMarket), Lookup(now, ctx.vault), read.0, read.1);
      var deposited :- CheckedAdd64(depositedAmount, amount).OkOr(MathOverflow);
      depositedAmount := deposited;
      shares, lastValue := read.0, read.1;
      pendingWithdrawAmount := 0;
      TotalsAppend(history, Deposited(amount));
      history := history + [Deposited(amount)];
      seen := Sources(derive, config, keys, now);
      return Ok(());
    }

    /** Records the request as pending; the deposit counter stays. */
    method Withdraw(derive: Deriver, config: AdapterConfig, ctx: Context, before: Accounts, protocol: Protocol,
                    amount: u64) returns (r: Result<(), DriftError>)
      requires Valid()
      modifies this
      ensures Valid()
      ensures r == (var _ :- CheckWithdraw(derive, config, keys, ctx, before, amount);
                    var now :- protocol(RequestRemoveData(amount)).OkOr(ProtocolCpiFailed);
                    var _ :- StoredValue(derive, config, keys, now);
                    Ok(()))
      ensures r.Err? ==> unchanged(this)
      ensures r.Ok? ==>
                && depositedAmount == old(depositedAmount) && pendingWithdrawAmount == amount
                && history == old(history) + [Withdrawn(amount)]
                && seen == Sources(derive, config, keys, protocol(RequestRemoveData(amount)).value)
                && seen.Some? && Reports(seen.value.0, seen.value.1, seen.value.2, shares, lastValue)
    {
      hide PositionValue, Reports, CheckDeposit, CheckWithdraw, RequestData, Sources, Lookup, TotalDeposited, Pending;
      var _ :- CheckWithdraw(derive, config, keys, ctx, before, amount);
      var now :- protocol(RequestRemoveData(amount)).OkOr(ProtocolCpiFailed);
      ChecksUseSources(derive, config, keys, ctx, before, amount, now);
      var read :- PositionValue(Lookup(now, ctx.stake), Lookup(now, ctx.spotMarket), Lookup(now, ctx.vault));
      PositionReports(Lookup(now, ctx.stake), Lookup(now, ctx.spotMarket), Lookup(now, ctx.vault), read.0, read.1);
      shares, lastValue := read.0, read.1;
      pendingWithdrawAmount := amount;
      TotalsAppend(history, Withdrawn(amount));
      history := history + [Withdrawn(amount)];
      seen := Sources(derive, config, keys, now);
      return Ok(());
    }

    /** Whatever accounts pass the checks, an unchanged protocol state gives back the stored value. */
    method CurrentValue(derive: Deriver, config: AdapterConfig, ctx: Context, accounts: Accounts)
      returns (r: Result<u64, DriftError>)
      requires Valid()
      ensures r == (var _ :- CheckValue(derive, config, keys, ctx, accounts);
                    var read :- StoredValue(derive, config, keys, accounts);
                    Ok(read.1))
      ensures r.Ok? ==>
                var sources := Sources(derive, config, keys, accounts);
                && sources.Some?
                && exists shares :: Reports(sources.value.0, sources.value.1, sources.value.2, shares, r.value)
      ensures r.Ok? && seen == Sources(derive, config, keys, accounts) ==> r.value == lastValue
    {
      hide PositionValue, Reports, CheckDeposit, CheckWithdraw, CheckValue, Sources;
      var _ :- CheckValue(derive, config, keys, ctx, accounts);
      ChecksUseSources(derive, config, keys, ctx, accounts, 0, accounts);
      var read :- PositionValue(Lookup(accounts, ctx.stake), Lookup(accounts, ctx.spotMarket),
                                Lookup(accounts, ctx.vault));
      PositionReports(Lookup(accounts, ctx.stake), Lookup(accounts, ctx.spotMarket), Lookup(accounts, ctx.vault),
                      read.0, read.1);
      return Ok(read.1);
    }
  }

  /** The two instructions a position sends, byte by byte. */
  lemma PositionBytes(position: Position, amount: u64)
    ensures var data := position.AddStakeData(amount);
            && |data| == 18 && data[..8] == [251, 144, 115, 11, 222, 47, 62, 236]
            && ReadU16(data, 8) == Some(position.keys.marketIndex) && ReadU64(data, 10) == Some(amount)
    ensures var data := position.RequestRemoveData(amount);
            && |data| == 18 && data[..8] == [142, 70, 204, 92, 73, 106, 180, 52]
            && ReadU16(data, 8) == Some(position.keys.marketIndex) && ReadU64(data, 10) == Some(amount)
  {
    hide ReadU16, ReadU64, RequestData;
    RequestBytes(ADD_STAKE_DISCRIMINATOR, position.keys.marketIndex, amount);
    RequestBytes(REQUEST_REMOVE_DISCRIMINATOR, position.keys.marketIndex, amount);
  }

  /**
   What the stored counters say of a position's own history. No request of zero ever succeeds, so the
   pending amount is complete only while no withdrawal came before the last operation, and the deposit
   counter is the net deposits only before the first withdrawal.
   */
  lemma CountersExactly(position: Position)
    requires position.Valid()
    ensures position.pendingWithdrawAmount == Requested(position.history) <==>
            forall i | 0 <= i < |position.history| - 1 :: position.history[i].Deposited?
    ensures position.depositedAmount == Net(position.history) + Requested(position.history)
    ensures position.depositedAmount == Net(position.history) <==>
            forall i | 0 <= i < |position.history| :: position.history[i].Deposited?
  {
    hide Requested, Pending, TotalDeposited, Net, PositionValue;
    PendingExactly(position.history);
    TotalExceedsNet(position.history);
    TotalExactly(position.history);
  }

  /** A position is opened only for the stake and statistics accounts derived from its owner. */
  method InitializePosition(derive: Deriver, config: AdapterConfig, owner: Pubkey, marketIndex: u16, stake: Pubkey,
                            userStats: Pubkey) returns (r: Result<Position, DriftError>)
    ensures r.Ok? <==> && IsFound(derive, config.protocolProgramId, StakeSeeds(owner, marketIndex), stake)
                       && IsFound(derive, config.protocolProgramId, Ascii("user_stats") + owner, userStats)
    ensures r.Err? ==>
              r.error == if IsFound(derive, config.protocolProgramId, StakeSeeds(owner, marketIndex), stake)
                         then InvalidUserStats else InvalidInsuranceFundStake
    ensures r.Ok? ==>
              && fresh(r.value) && r.value.Valid() && r.value.history == []
              && r.value.keys == Keys(owner, stake, userStats, marketIndex)
  {
    if !IsFound(derive, config.protocolProgramId, StakeSeeds(owner, marketIndex), stake) {
      return Err(InvalidInsuranceFundStake);
    }
    if !IsFound(derive, config.protocolProgramId, Ascii("user_stats") + owner, userStats) {
      return Err(InvalidUserStats);
    }
    var position := new Position(Keys(owner, stake, userStats, marketIndex));
    return Ok(position);
  }
}
