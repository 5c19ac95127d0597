/** The Kamino adapter: user-owned collateral tokens valued at the reserve's exchange rate. */
module KaminoUsdc {
  import opened Wrappers
  import opened MachineInts
  import opened Bytes
  import opened Accounts
  import opened Pda
  import opened NetDeposits
  import opened Solvency
  import opened KaminoRate

  const RESERVE_DISCRIMINATOR: seq<u8> := [43, 242, 204, 202, 26, 247, 59, 127]
  const DEPOSIT_IX_DISCRIMINATOR: seq<u8> := [169, 201, 30, 126, 6, 205, 102, 68]
  const REDEEM_IX_DISCRIMINATOR: seq<u8> := [234, 117, 181, 125, 185, 142, 220, 29]

  const RESERVE_LENDING_MARKET_OFFSET := 32
  const RESERVE_LIQUIDITY_MINT_OFFSET := 128
  const RESERVE_LIQUIDITY_SUPPLY_OFFSET := 160
  const RESERVE_TOTAL_AVAILABLE_OFFSET := 224
  const RESERVE_BORROWED_SF_OFFSET := 232
  const RESERVE_PROTOCOL_FEES_SF_OFFSET := 344
  const RESERVE_REFERRER_FEES_SF_OFFSET := 360
  const RESERVE_PENDING_REFERRER_FEES_SF_OFFSET := 376
  const RESERVE_TOKEN_PROGRAM_OFFSET := 408
  const RESERVE_COLLATERAL_MINT_OFFSET := 2560
  const RESERVE_COLLATERAL_SUPPLY_OFFSET := 2592
  const RESERVE_LENGTH := 2600

  function KeyAt(data: seq<u8>, offset: nat): Pubkey
    requires offset + 32 <= |data|
  {
    data[offset..offset + 32]
  }

  function U64At(data: seq<u8>, offset: nat): u64
    requires offset + 8 <= |data|
  {
    ReadU64(data, offset).value
  }

  function U128At(data: seq<u8>, offset: nat): u128
    requires offset + 16 <= |data|
  {
    ReadU128(data, offset).value
  }

  function ReadReserveFields(data: seq<u8>): Result<ReserveFields, KaminoError> {
    if |data| < RESERVE_LENGTH then Err(InvalidProtocolAccount)
    else if data[..8] != RESERVE_DISCRIMINATOR then Err(InvalidReserve)
    else Ok(ReserveFields(
              KeyAt(data, RESERVE_LENDING_MARKET_OFFSET),
              KeyAt(data, RESERVE_LIQUIDITY_MINT_OFFSET),
              KeyAt(data, RESERVE_LIQUIDITY_SUPPLY_OFFSET),
              KeyAt(data, RESERVE_TOKEN_PROGRAM_OFFSET),
              U64At(data, RESERVE_TOTAL_AVAILABLE_OFFSET),
              U128At(data, RESERVE_BORROWED_SF_OFFSET),
              U128At(data, RESERVE_PROTOCOL_FEES_SF_OFFSET),
              U128At(data, RESERVE_REFERRER_FEES_SF_OFFSET),
              U128At(data, RESERVE_PENDING_REFERRER_FEES_SF_OFFSET),
              KeyAt(data, RESERVE_COLLATERAL_MINT_OFFSET),
              U64At(data, RESERVE_COLLATERAL_SUPPLY_OFFSET)))
  }

  /** The reserve bytes between and after the fields that are read. */
  datatype Gaps = Gaps(toMarket: seq<u8>, toMint: seq<u8>, toAvailable: seq<u8>, toFees: seq<u8>, toProgram: seq<u8>,
                       toCollateral: seq<u8>) {
    ghost predicate Fit() {
      && |toMarket| == 24 && |toMint| == 64 && |toAvailable| == 32 && |toFees| == 96 && |toProgram| == 16
      && |toCollateral| == 2120
    }
  }

  ghost function EncodeLiquidity(fields: ReserveFields, gaps: Gaps): (s: seq<u8>)
    requires gaps.Fit()
    ensures |s| == 248
  {
    RESERVE_DISCRIMINATOR + gaps.toMarket + fields.lendingMarket + gaps.toMint + fields.liquidityMint
    + fields.liquiditySupply + gaps.toAvailable + LeBytes64(fields.totalAvailable) + LeBytes128(fields.borrowedSf)
  }

  ghost function EncodeFees(fields: ReserveFields, gaps: Gaps): (s: seq<u8>)
    requires gaps.Fit()
    ensures |s| == 192
  {
    gaps.toFees + LeBytes128(fields.protocolFeesSf) + LeBytes128(fields.referrerFeesSf)
    + LeBytes128(fields.pendingReferrerFeesSf) + gaps.toProgram + fields.liquidityTokenProgram
  }

  /** The reserve layout: liquidity, accumulated fees, then the collateral mint and its supply. */
  ghost function EncodeReserve(fields: ReserveFields, gaps: Gaps): (s: seq<u8>)
    requires gaps.Fit()
    ensures |s| == RESERVE_LENGTH
  {
    EncodeLiquidity(fields, gaps) + EncodeFees(fields, gaps) + gaps.toCollateral + fields.collateralMint
    + LeBytes64(fields.collateralSupply)
  }

  lemma LiquidityReads(fields: ReserveFields, gaps: Gaps, data: seq<u8>)
    requires gaps.Fit() && EncodeLiquidity(fields, gaps) <= data
    ensures data[..8] == RESERVE_DISCRIMINATOR
    ensures ReadKey(data, RESERVE_LENDING_MARKET_OFFSET) == Some(fields.lendingMarket)
    ensures ReadKey(data, RESERVE_LIQUIDITY_MINT_OFFSET) == Some(fields.liquidityMint)
    ensures ReadKey(data, RESERVE_LIQUIDITY_SUPPLY_OFFSET) == Some(fields.liquiditySupply)
    ensures ReadU64(data, RESERVE_TOTAL_AVAILABLE_OFFSET) == Some(fields.totalAvailable)
    ensures ReadU128(data, RESERVE_BORROWED_SF_OFFSET) == Some(fields.borrowedSf)
  {
    hide LeBytes64, LeBytes128, LeValue, Pow256, Slice;
    var p2 := RESERVE_DISCRIMINATOR + gaps.toMarket;
    var p3 := p2 + fields.lendingMarket;
    var p4 := p3 + gaps.toMint;
    var p5 := p4 + fields.liquidityMint;
    var p6 := p5 + fields.liquiditySupply;
    var p7 := p6 + gaps.toAvailable;
    var p8 := p7 + LeBytes64(fields.totalAvailable);
    AppendedField(p8, LeBytes128(fields.borrowedSf), data);
    AppendedField(p7, LeBytes64(fields.totalAvailable), data);
    AppendedField(p6, gaps.toAvailable, data);
    AppendedField(p5, fields.liquiditySupply, data);
    AppendedField(p4, fields.liquidityMint, data);
    AppendedField(p3, gaps.toMint, data);
    AppendedField(p2, fields.lendingMarket, data);
    AppendedField(RESERVE_DISCRIMINATOR, gaps.toMarket, data);
  }

  lemma FeesRead(fields: ReserveFields, gaps: Gaps, before: seq<u8>, data: seq<u8>)
    requires gaps.Fit() && |before| == 248 && before + EncodeFees(fields, gaps) <= data
    ensures ReadU128(data, RESERVE_PROTOCOL_FEES_SF_OFFSET) == Some(fields.protocolFeesSf)
    ensures ReadU128(data, RESERVE_REFERRER_FEES_SF_OFFSET) == Some(fields.referrerFeesSf)
    ensures ReadU128(data, RESERVE_PENDING_REFERRER_FEES_SF_OFFSET) == Some(fields.pendingReferrerFeesSf)
    ensures ReadKey(data, RESERVE_TOKEN_PROGRAM_OFFSET) == Some(fields.liquidityTokenProgram)
  {
    hide LeBytes64, LeBytes128, LeValue, Pow256, Slice;
    var p1 := before + gaps.toFees;
    var p2 := p1 + LeBytes128(fields.protocolFeesSf);
    var p3 := p2 + LeBytes128(fields.referrerFeesSf);
    var p4 := p3 + LeBytes128(fields.pendingReferrerFeesSf);
    var p5 := p4 + gaps.toProgram;
    assert before + EncodeFees(fields, gaps) == p5 + fields.liquidityTokenProgram;
    AppendedField(p5, fields.liquidityTokenProgram, data);
    AppendedField(p4, gaps.toProgram, data);
    AppendedField(p3, LeBytes128(fields.pendingReferrerFeesSf), data);
    AppendedField(p2, LeBytes128(fields.referrerFeesSf), data);
    AppendedField(p1, LeBytes128(fields.protocolFeesSf), data);
  }

  /** Reading an encoded reserve gives back every field; anything shorter than one is refused. */
  lemma ReserveRoundTrip(fields: ReserveFields, gaps: Gaps, tail: seq<u8>)
    requires gaps.Fit()
    ensures ReadReserveFields(EncodeReserve(fields, gaps) + tail) == Ok(fields)
    ensures forall cut | 0 <= cut < RESERVE_LENGTH ::
              ReadReserveFields(EncodeReserve(fields, gaps)[..cut]) == Err(InvalidProtocolAccount)
  {
    hide LeBytes64, LeBytes128, LeValue, Pow256, EncodeLiquidity, EncodeFees;
    var data := EncodeReserve(fields, gaps) + tail;
    var p2 := EncodeLiquidity(fields, gaps) + EncodeFees(fields, gaps);
    var p3 := p2 + gaps.toCollateral;
    var p4 := p3 + fields.collateralMint;
    AppendedField(p4, LeBytes64(fields.collateralSupply), data);
    AppendedField(p3, fields.collateralMint, data);
    AppendedField(p2, gaps.toCollateral, data);
    LiquidityReads(fields, gaps, data);
    FeesRead(fields, gaps, EncodeLiquidity(fields, gaps), data);
  }

  /** The accounts a caller passes, and the address of the instructions sysvar. */
  datatype Context = Context(
    owner: Pubkey,
    mint: Pubkey,
    program: Pubkey,
    reserve: Pubkey,
    lendingMarket: Pubkey,
    lendingMarketAuthority: Pubkey,
    liquidityMint: Pubkey,
    liquiditySupply: Pubkey,
    collateralMint: Pubkey,
    userLiquidity: Pubkey,
    userCollateral: Pubkey,
    collateralTokenProgram: Pubkey,
    liquidityTokenProgram: Pubkey,
    instructionSysvar: Pubkey,
    sysvarId: Pubkey
  )

  datatype Keys = Keys(owner: Pubkey, reserve: Pubkey, collateralTokenAccount: Pubkey)

  function DepositData(amount: u64): seq<u8> {
    DEPOSIT_IX_DISCRIMINATOR + LeBytes64(amount)
  }

  function RedeemData(collateral: u64): seq<u8> {
    REDEEM_IX_DISCRIMINATOR + LeBytes64(collateral)
  }

  lemma InstructionBytes(amount: u64)
    ensures var data := DepositData(amount);
            && |data| == 16 && data[..8] == [169, 201, 30, 126, 6, 205, 102, 68] && ReadU64(data, 8) == Some(amount)
    ensures var data := RedeemData(amount);
            && |data| == 16 && data[..8] == [234, 117, 181, 125, 185, 142, 220, 29] && ReadU64(data, 8) == Some(amount)
  {
    NumberAt(DEPOSIT_IX_DISCRIMINATOR, amount, []);
    NumberAt(REDEEM_IX_DISCRIMINATOR, amount, []);
  }

  function CheckOwnerAndMint(config: AdapterConfig, keys: Keys, ctx: Context): Result<(), KaminoError> {
    if ctx.mint != config.supportedMint then Err(InvalidMint)
    else if ctx.owner != keys.owner then Err(InvalidOwner)
    else Ok(())
  }

  function CheckReserve(config: AdapterConfig, keys: Keys, ctx: Context, accounts: Accounts)
    : Result<ReserveFields, KaminoError> {
    if ctx.program != config.protocolProgramId then Err(InvalidProtocolProgram)
    else if ctx.reserve != keys.reserve then Err(InvalidReserve)
    else if Lookup(accounts, ctx.reserve).owner != ctx.program then Err(InvalidProtocolAccount)
    else
      var fields :- ReadReserveFields(Lookup(accounts, ctx.reserve).data);
      if fields.liquidityMint != config.supportedMint then Err(InvalidMint) else Ok(fields)
  }

  function CheckMarketAndVaults(derive: Deriver, ctx: Context, fields: ReserveFields): Result<(), KaminoError> {
    if ctx.lendingMarket != fields.lendingMarket then Err(InvalidLendingMarket)
    else if !IsFound(derive, ctx.program, Ascii("lma") + ctx.lendingMarket, ctx.lendingMarketAuthority)
    then Err(InvalidLendingMarket)
    else if ctx.liquidityMint != fields.liquidityMint then Err(InvalidMint)
    else if ctx.liquiditySupply != fields.liquiditySupply then Err(InvalidVault)
    else if ctx.collateralMint != fields.collateralMint then Err(InvalidVault)
    else if ctx.liquidityTokenProgram != fields.liquidityTokenProgram then Err(InvalidTokenAccount)
    else Ok(())
  }

  function CheckUserLiquidity(config: AdapterConfig, ctx: Context, accounts: Accounts): Result<(), KaminoError> {
    CheckTokenAccount(Lookup(accounts, ctx.userLiquidity), ctx.liquidityTokenProgram, config.supportedMint, ctx.owner,
                      InvalidProtocolAccount, InvalidTokenAccount)
  }

  function CheckUserCollateral(keys: Keys, ctx: Context, accounts: Accounts, fields: ReserveFields)
    : Result<(), KaminoError> {
    var _ :- CheckTokenAccount(Lookup(accounts, ctx.userCollateral), ctx.collateralTokenProgram, fields.collateralMint,
                               ctx.owner, InvalidProtocolAccount, InvalidTokenAccount);
    if ctx.userCollateral != keys.collateralTokenAccount then Err(InvalidTokenAccount) else Ok(())
  }

  function CheckDeposit(derive: Deriver, config: AdapterConfig, keys: Keys, ctx: Context, accounts: Accounts,
                        amount: u64): Result<(), KaminoError> {
    if amount == 0 then Err(InvalidAmount) else
      var _ :- CheckOwnerAndMint(config, keys, ctx);
      var fields :- CheckReserve(config, keys, ctx, accounts);
      var _ :- CheckMarketAndVaults(derive, ctx, fields);
      var _ :- CheckUserLiquidity(config, ctx, accounts);
      var _ :- CheckUserCollateral(keys, ctx, accounts, fields);
      if ctx.instructionSysvar != ctx.sysvarId then Err(InvalidInstructionSysvar) else Ok(())
  }

  /** The same checks with the two user accounts in the other order; answers the reserve it read. */
  function CheckWithdraw(derive: Deriver, config: AdapterConfig, keys: Keys, ctx: Context, accounts: Accounts,
                         amount: u64): Result<ReserveFields, KaminoError> {
    if amount == 0 then Err(InvalidAmount) else
      var _ :- CheckOwnerAndMint(config, keys, ctx);
      var fields :- CheckReserve(config, keys, ctx, accounts);
      var _ :- CheckMarketAndVaults(derive, ctx, fields);
      var _ :- CheckUserCollateral(keys, ctx, accounts, fields);
      var _ :- CheckUserLiquidity(config, ctx, accounts);
      if ctx.instructionSysvar != ctx.sysvarId then Err(InvalidInstructionSysvar) else Ok(fields)
  }

  function CheckValue(config: AdapterConfig, keys: Keys, ctx: Context, accounts: Accounts): Result<(), KaminoError> {
    var _ :- CheckOwnerAndMint(config, keys, ctx);
    var fields :- CheckReserve(config, keys, ctx, accounts);
    var _ :- CheckTokenData(Lookup(accounts, ctx.userCollateral), fields.collateralMint, ctx.owner,
                            InvalidProtocolAccount, InvalidTokenAccount);
    if ctx.userCollateral != keys.collateralTokenAccount then Err(InvalidTokenAccount) else Ok(())
  }

  /** Collateral tokens and their value, from the reserve's and the token account's data. */
  function PositionValue(reserve: Account, collateral: Account): Result<(u64, u64), KaminoError> {
    var fields :- ReadReserveFields(reserve.data);
    var shares :- ReadTokenAmount(collateral, InvalidProtocolAccount);
    var value :- CollateralToLiquidity(shares, fields);
    Ok((shares, value))
  }

  /** A pair of shares and value as reserve and token account have it: the balance and what it is worth. */
  predicate Reports(reserve: Account, collateral: Account, shares: u64, value: u64) {
    var fields := ReadReserveFields(reserve.data);
    fields.Ok? && ReadU64(collateral.data, 64) == Some(shares) && value == Worth(shares, fields.value)
  }

  /** The position's pair for any accounts: reported as they have it, or the first reason why not. */
  lemma PositionValueExact(reserve: Account, collateral: Account)
    ensures var (fields, held) := (ReadReserveFields(reserve.data), ReadU64(collateral.data, 64));
            PositionValue(reserve, collateral) ==
            if fields.Err? then Err(fields.error)
            else if held.None? then Err(InvalidProtocolAccount)
            else if Assets(fields.value) < Fees(fields.value) || TWO_64 <= Worth(held.value, fields.value)
            then Err(MathOverflow)
            else Ok((held.value, Worth(held.value, fields.value)))
  {
    hide ReadReserveFields, CollateralToLiquidity, Worth, Assets, Fees;
    var (fields, held) := (ReadReserveFields(reserve.data), ReadU64(collateral.data, 64));
    if fields.Ok? && held.Some? {
      ValueOutcome(held.value, fields.value);
    }
  }

  lemma PositionReports(reserve: Account, collateral: Account, shares: u64, value: u64)
    requires PositionValue(reserve, collateral) == Ok((shares, value))
    ensures Reports(reserve, collateral, shares, value)
  {
    hide ReadReserveFields, Worth, Assets, Fees, PositionValue;
    PositionValueExact(reserve, collateral);
  }

  /** And on encoded accounts. */
  lemma EncodedPositionValue(fields: ReserveFields, gaps: Gaps, tail: seq<u8>, mint: Pubkey, holder: Pubkey, held: u64,
                             tokenTail: seq<u8>, program: Pubkey, tokenProgram: Pubkey)
    requires gaps.Fit()
    ensures PositionValue(Account(program, EncodeReserve(fields, gaps) + tail),
                          Account(tokenProgram, mint + holder + LeBytes64(held) + tokenTail)) ==
            var exact := if Priced(fields) then Portion(held, Supply(fields), fields.collateralSupply) else held;
            if Assets(fields) < Fees(fields) || TWO_64 <= exact then Err(MathOverflow) else Ok((held, exact))
  {
    hide ReadReserveFields, EncodeReserve, LeBytes64, Assets, Fees, Portion, PositionValue;
    ReserveRoundTrip(fields, gaps, tail);
    EncodedTokenAmount(mint, holder, held, tokenTail, tokenProgram, InvalidProtocolAccount);
    PositionValueExact(Account(program, EncodeReserve(fields, gaps) + tail),
                       Account(tokenProgram, mint + holder + LeBytes64(held) + tokenTail));
  }

  /** What the checks let through names the accounts stored in the position. */
  lemma ChecksUseStoredKeys(derive: Deriver, config: AdapterConfig, keys: Keys, ctx: Context, accounts: Accounts,
                            amount: u64)
    requires || CheckDeposit(derive, config, keys, ctx, accounts, amount).Ok?
             || CheckWithdraw(derive, config, keys, ctx, accounts, amount).Ok?
             || CheckValue(config, keys, ctx, accounts).Ok?
    ensures ctx.owner == keys.owner && ctx.reserve == keys.reserve
    ensures ctx.userCollateral == keys.collateralTokenAccount
    ensures Lookup(accounts, keys.reserve).owner == config.protocolProgramId
    ensures ReadReserveFields(Lookup(accounts, keys.reserve).data).Ok?
    ensures CheckWithdraw(derive, config, keys, ctx, accounts, amount).Ok? ==>
              CheckWithdraw(derive, config, keys, ctx, accounts, amount) ==
              ReadReserveFields(Lookup(accounts, keys.reserve).data)
  {
    hide ReadReserveFields, CheckMarketAndVaults, CheckUserLiquidity, CheckTokenAccount, CheckTokenData;
  }

  class Position {
    const keys: Keys
    var depositedAmount: u64
    var shares: u64
    var lastValue: u64

    /** The successful deposits and withdrawals so far, and the accounts the last of them left behind. */
    ghost var history: seq<Op>
    ghost var seen: Option<(Account, Account)>

    ghost predicate Valid()
      reads this
    {
      && Track(history) == Some(depositedAmount)
      && (seen.None? <==> history == [])
      && (seen.None? ==> shares == 0 && lastValue == 0)
      && (seen.Some? ==> PositionValue(seen.value.0, seen.value.1) == Ok((shares, lastValue)))
    }

    constructor (keys: Keys)
      ensures Valid() && history == [] && this.keys == keys
    {
      this.keys := keys;
      depositedAmount, shares, lastValue := 0, 0, 0;
      history, seen := [], None;
    }

    ghost function Pair(accounts: Accounts): (Account, Account)
      reads this
    {
      (Lookup(accounts, keys.reserve), Lookup(accounts, keys.collateralTokenAccount))
    }

    method Deposit(derive: Deriver, config: AdapterConfig, ctx: Context, before: Accounts, protocol: Protocol,
                   amount: u64) returns (r: Result<(), KaminoError>)
      requires Valid()
      modifies this
      ensures Valid()
      ensures r == (var _ :- CheckDeposit(derive, config, keys, ctx, before, amount);
                    var now :- protocol(DepositData(amount)).OkOr(ProtocolCpiFailed);
                    var _ :- PositionValue(Pair(now).0, Pair(now).1);
                    var _ :- CheckedAdd64(old(depositedAmount), amount).OkOr(MathOverflow);
                    Ok(()))
      ensures r.Err? ==> unchanged(this)
      ensures r.Ok? ==>
                && depositedAmount == old(depositedAmount) + amount
                && history == old(history) + [Deposited(amount)]
                && seen == Some(Pair(protocol(DepositData(amount)).value))
                && Reports(seen.value.0, seen.value.1, shares, lastValue)
    {
      hide Track, Lookup, Reports, PositionValue, CheckDeposit, CheckWithdraw, CheckValue, DepositData;
      hide ReadReserveFields;
      var _ :- CheckDeposit(derive, config, keys, ctx, before, amount);
      ChecksUseStoredKeys(derive, config, keys, ctx, before, amount);
      var now :- protocol(DepositData(amount)).OkOr(ProtocolCpiFailed);
      var read :- PositionValue(Lookup(now, ctx.reserve), Lookup(now, ctx.userCollateral));
      PositionReports(Lookup(now, ctx.reserve), Lookup(now, ctx.userCollateral), read.0, read.1);
      var deposited :- CheckedAdd64(depositedAmount, amount).OkOr(MathOverflow);
      depositedAmount := deposited;
      shares, lastValue := read.0, read.1;
      TrackAppend(history, Deposited(amount));
      history := history + [Deposited(amount)];
      seen := Some(Pair(now));
      return Ok(());
    }

    /** The redemption burns the collateral computed from the reserve as it was before the call. */
    method Withdraw(derive: Deriver, config: AdapterConfig, ctx: Context, before: Accounts, protocol: Protocol,
                    amount: u64) returns (r: Result<u64, KaminoError>)
      requires Valid()
      modifies this
      ensures Valid()
      ensures r == (var fields :- CheckWithdraw(derive, config, keys, ctx, before, amount);
                    var burned :- LiquidityToCollateralCeil(amount, fields);
                    var now :- protocol(RedeemData(burned)).OkOr(ProtocolCpiFailed);
                    var _ :- PositionValue(Pair(now).0, Pair(now).1);
                    Ok(burned))
      ensures r.Err? ==> unchanged(this)
      ensures r.Ok? ==>
                && var fields := ReadReserveFields(Pair(before).0.data);
                && fields.Ok? && LiquidityToCollateralCeil(amount, fields.value) == r
                && depositedAmount == SaturatingSub64(old(depositedAmount), amount)
                && history == old(history) + [Withdrawn(amount)]
                && seen == Some(Pair(protocol(RedeemData(r.value)).value))
                && Reports(seen.value.0, seen.value.1, shares, lastValue)
    {
      hide Track, Lookup, Reports, PositionValue, CheckDeposit, CheckWithdraw, CheckValue, RedeemData;
      hide ReadReserveFields;
      hide LiquidityToCollateralCeil;
      var fields :- CheckWithdraw(derive, config, keys, ctx, before, amount);
      ChecksUseStoredKeys(derive, config, keys, ctx, before, amount);
      var burned :- LiquidityToCollateralCeil(amount, fields);
      var now :- protocol(RedeemData(burned)).OkOr(ProtocolCpiFailed);
      var read :- PositionValue(Lookup(now, ctx.reserve), Lookup(now, ctx.userCollateral));
      PositionReports(Lookup(now, ctx.reserve), Lookup(now, ctx.userCollateral), read.0, read.1);
      depositedAmount := SaturatingSub64(depositedAmount, amount);
      shares, lastValue := read.0, read.1;
      TrackAppend(history, Withdrawn(amount));
      history := history + [Withdrawn(amount)];
      seen := Some(Pair(now));
      return Ok(burned);
    }

    /** Whatever accounts pass the checks, an unchanged protocol state gives back the stored value. */
    method CurrentValue(config: AdapterConfig, ctx: Context, accounts: Accounts) returns (r: Result<u64, KaminoError>)
      requires Valid()
      ensures r == (var _ :- CheckValue(config, keys, ctx, accounts);
                    var read :- PositionValue(Pair(accounts).0, Pair(accounts).1);
                    Ok(read.1))
      ensures r.Ok? ==> exists shares :: Reports(Pair(accounts).0, Pair(accounts).1, shares, r.value)
      ensures r.Ok? && seen == Some(Pair(accounts)) ==> r.value == lastValue
    {
      hide Track, Lookup, Reports, PositionValue, CheckDeposit, CheckWithdraw, CheckValue, ReadReserveFields;
      var _ :- CheckValue(config, keys, ctx, accounts);
      ChecksUseStoredKeys((p, s) => None, config, keys, ctx, accounts, 0);
      var read :- PositionValue(Lookup(accounts, ctx.reserve), Lookup(accounts, ctx.userCollateral));
      PositionReports(Lookup(accounts, ctx.reserve), Lookup(accounts, ctx.userCollateral), read.0, read.1);
      return Ok(read.1);
    }
  }

  method InitializePosition(owner: Pubkey, reserve: Pubkey, collateralTokenAccount: Pubkey)
    returns (r: Result<Position, KaminoError>)
    ensures r.Err? <==> reserve == DEFAULT_KEY || collateralTokenAccount == DEFAULT_KEY
    ensures r.Err? ==> r.error == if reserve == DEFAULT_KEY then InvalidReserve else InvalidTokenAccount
    ensures r.Ok? ==>
              && fresh(r.value) && r.value.Valid() && r.value.history == []
              && r.value.keys == Keys(owner, reserve, collateralTokenAccount)
  {
    if reserve == DEFAULT_KEY {
      return Err(InvalidReserve);
    }
    if collateralTokenAccount == DEFAULT_KEY {
      return Err(InvalidTokenAccount);
    }
    var position := new Position(Keys(owner, reserve, collateralTokenAccount));
    return Ok(position);
  }
}
