/** The Jupiter adapter: LP tokens held by the user, with slippage guards quoted from the pool. */
module JupiterLp {
  import opened Wrappers
  import opened MachineInts
  import opened Bytes
  import opened Accounts
  import opened Pda
  import opened NetDeposits
  import opened Solvency
  import opened JupiterRate
  import opened JupiterPool

  const CUSTODY_DISCRIMINATOR: seq<u8> := [1, 184, 48, 81, 93, 131, 63, 145]
  const ADD_LIQUIDITY_DISCRIMINATOR: seq<u8> := [228, 162, 78, 28, 70, 219, 116, 115]
  const REMOVE_LIQUIDITY_DISCRIMINATOR: seq<u8> := [230, 215, 82, 127, 241, 101, 227, 146]
  const MINT_SUPPLY_OFFSET := 36
  const MINT_DECIMALS_OFFSET := 44
  const CUSTODY_POOL_OFFSET := 8
  const CUSTODY_MINT_OFFSET := 40
  const CUSTODY_TOKEN_ACCOUNT_OFFSET := 72
  const CUSTODY_PYTHNET_PRICE_OFFSET := 106
  const CUSTODY_DOVES_AG_PRICE_OFFSET := 384

  /** The well-known addresses the adapter is compiled with. */
  datatype Ids = Ids(
    perpsProgram: Pubkey,
    tokenProgram: Pubkey,
    pool: Pubkey,
    usdcCustody: Pubkey,
    lpMint: Pubkey,
    dovesAgPrice: Pubkey
  )

  /** The accounts a caller passes; `userToken` funds a deposit and receives a withdrawal. */
  datatype Context = Context(
    owner: Pubkey,
    mint: Pubkey,
    program: Pubkey,
    userToken: Pubkey,
    lpToken: Pubkey,
    transferAuthority: Pubkey,
    perpetuals: Pubkey,
    pool: Pubkey,
    custody: Pubkey,
    dovesPrice: Pubkey,
    pythnetPrice: Pubkey,
    custodyToken: Pubkey,
    lpMint: Pubkey,
    tokenProgram: Pubkey,
    eventAuthority: Pubkey
  )

  datatype Keys = Keys(owner: Pubkey, pool: Pubkey, custody: Pubkey, lpTokenAccount: Pubkey)

  function AddLiquidityData(amount: u64, minOut: u64): seq<u8> {
    ADD_LIQUIDITY_DISCRIMINATOR + LeBytes64(amount) + LeBytes64(minOut) + [0]
  }

  function RemoveLiquidityData(lpIn: u64, minOut: u64): seq<u8> {
    REMOVE_LIQUIDITY_DISCRIMINATOR + LeBytes64(lpIn) + LeBytes64(minOut)
  }

  function CheckOwnerAndMint(config: AdapterConfig, keys: Keys, ctx: Context): Result<(), JupiterError> {
    if ctx.mint != config.supportedMint then Err(InvalidMint)
    else if ctx.owner != keys.owner then Err(InvalidOwner)
    else Ok(())
  }

  function CheckPrograms(derive: Deriver, ids: Ids, config: AdapterConfig, ctx: Context): Result<(), JupiterError> {
    if config.protocolProgramId != ctx.program then Err(InvalidProtocolProgram)
    else if ctx.program != ids.perpsProgram then Err(InvalidProtocolProgram)
    else if !IsFound(derive, ctx.program, Ascii("perpetuals"), ctx.perpetuals) then Err(InvalidPerpetuals)
    else if !IsFound(derive, ctx.program, Ascii("transfer_authority"), ctx.transferAuthority)
    then Err(InvalidTransferAuthority)
    else if !IsFound(derive, ctx.program, Ascii("__event_authority"), ctx.eventAuthority)
    then Err(InvalidEventAuthority)
    else if ctx.tokenProgram != ids.tokenProgram then Err(InvalidTokenAccount)
    else Ok(())
  }

  function CheckStored(ids: Ids, keys: Keys, ctx: Context): Result<(), JupiterError> {
    if ctx.pool != keys.pool || ctx.pool != ids.pool then Err(InvalidPool)
    else if ctx.custody != keys.custody || ctx.custody != ids.usdcCustody then Err(InvalidCustody)
    else if ctx.lpToken != keys.lpTokenAccount then Err(InvalidTokenAccount)
    else Ok(())
  }

  function CheckMintData(ids: Ids, ctx: Context, accounts: Accounts): Result<(), JupiterError> {
    var mint := Lookup(accounts, ctx.lpMint).data;
    if ctx.lpMint != ids.lpMint then Err(InvalidTokenAccount)
    else if |mint| <= MINT_DECIMALS_OFFSET || mint[MINT_DECIMALS_OFFSET] != 6 then Err(InvalidTokenAccount)
    else Ok(())
  }

  function CheckTokens(derive: Deriver, ids: Ids, config: AdapterConfig, ctx: Context, accounts: Accounts)
    : Result<(), JupiterError> {
    var _ :- CheckTokenAccount(Lookup(accounts, ctx.userToken), ctx.tokenProgram, config.supportedMint, ctx.owner,
                               InvalidTokenAccount, InvalidTokenAccount);
    var _ :- CheckTokenAccount(Lookup(accounts, ctx.lpToken), ctx.tokenProgram, ids.lpMint, ctx.owner,
                               InvalidTokenAccount, InvalidTokenAccount);
    if !IsFound(derive, ctx.program, Ascii("lp_token_mint") + ctx.pool, ctx.lpMint) then Err(InvalidTokenAccount)
    else if ctx.lpMint != ids.lpMint then Err(InvalidTokenAccount)
    else if Lookup(accounts, ctx.lpMint).owner != ctx.tokenProgram then Err(InvalidTokenAccount)
    else CheckMintData(ids, ctx, accounts)
  }

  function CheckCustodyBasic(ids: Ids, config: AdapterConfig, ctx: Context, accounts: Accounts)
    : Result<(), JupiterError> {
    var custody := Lookup(accounts, ctx.custody);
    if custody.owner != ids.perpsProgram then Err(InvalidCustody)
    else if |custody.data| < CUSTODY_DOVES_AG_PRICE_OFFSET + 32 then Err(InvalidCustody)
    else if custody.data[..8] != CUSTODY_DISCRIMINATOR then Err(InvalidCustody)
    else if !KeyIs(custody.data, CUSTODY_POOL_OFFSET, ctx.pool) then Err(InvalidCustody)
    else if !KeyIs(custody.data, CUSTODY_MINT_OFFSET, config.supportedMint) then Err(InvalidMint)
    else Ok(())
  }

  function CheckCustody(ids: Ids, config: AdapterConfig, ctx: Context, accounts: Accounts): Result<(), JupiterError> {
    var data := Lookup(accounts, ctx.custody).data;
    var _ :- CheckCustodyBasic(ids, config, ctx, accounts);
    if !KeyIs(data, CUSTODY_TOKEN_ACCOUNT_OFFSET, ctx.custodyToken) then Err(InvalidCustody)
    else if !KeyIs(data, CUSTODY_DOVES_AG_PRICE_OFFSET, ctx.dovesPrice) then Err(InvalidCustody)
    else if ctx.dovesPrice != ids.dovesAgPrice then Err(InvalidCustody)
    else if !KeyIs(data, CUSTODY_PYTHNET_PRICE_OFFSET, ctx.pythnetPrice) then Err(InvalidCustody)
    else Ok(())
  }

  /** The checks both liquidity instructions share; they answer the pool's value. */
  function CheckLiquidity(derive: Deriver, ids: Ids, config: AdapterConfig, keys: Keys, ctx: Context,
                          accounts: Accounts, amount: u64): Result<u128, JupiterError> {
    if amount == 0 then Err(InvalidAmount) else
      var _ :- CheckOwnerAndMint(config, keys, ctx);
      var _ :- CheckPrograms(derive, ids, config, ctx);
      var _ :- CheckStored(ids, keys, ctx);
      var _ :- CheckTokens(derive, ids, config, ctx, accounts);
      var _ :- CheckCustody(ids, config, ctx, accounts);
      var _ :- CheckPerpetuals(Lookup(accounts, ctx.perpetuals), ids.perpsProgram, ctx.pool);
      PoolAum(Lookup(accounts, ctx.pool), ids.perpsProgram, ctx.custody)
  }

  function CheckValue(ids: Ids, config: AdapterConfig, keys: Keys, ctx: Context, accounts: Accounts)
    : Result<u128, JupiterError> {
    var _ :- CheckOwnerAndMint(config, keys, ctx);
    var _ :- CheckStored(ids, keys, ctx);
    var _ :- CheckTokenData(Lookup(accounts, ctx.lpToken), ids.lpMint, ctx.owner,
                            InvalidTokenAccount, InvalidTokenAccount);
    var _ :- CheckMintData(ids, ctx, accounts);
    var _ :- CheckCustodyBasic(ids, config, ctx, accounts);
    PoolAum(Lookup(accounts, ctx.pool), ids.perpsProgram, ctx.custody)
  }

  function MintSupply(mint: Account): Result<u64, JupiterError> {
    ReadU64(mint.data, MINT_SUPPLY_OFFSET).OkOr(InvalidTokenAccount)
  }

  /** What an instruction decides before the protocol call: the call's data and the LP balance then. */
  datatype Order = Order(aum: u128, supply: u64, data: seq<u8>, lpGuard: u64, sharesBefore: u64)

  function DepositOrder(lpToken: Account, lpMint: Account, aum: u128, amount: u64): Result<Order, JupiterError> {
    var supply :- MintSupply(lpMint);
    var quoted :- UsdcToLpFloor(amount, aum, supply);
    var minOut :- ApplyBpsFloor(quoted, DEPOSIT_MIN_OUT_BPS);
    var shares :- ReadTokenAmount(lpToken, InvalidTokenAccount);
    Ok(Order(aum, supply, AddLiquidityData(amount, minOut), minOut, shares))
  }

  function WithdrawOrder(lpToken: Account, lpMint: Account, aum: u128, amount: u64): Result<Order, JupiterError> {
    var supply :- MintSupply(lpMint);
    var base :- UsdcToLpCeil(amount, aum, supply);
    var lpIn :- ApplyBpsCeil(base, WITHDRAW_BURN_BUFFER_BPS);
    var shares :- ReadTokenAmount(lpToken, InvalidTokenAccount);
    if shares < lpIn then Err(InvalidAmount)
    else Ok(Order(aum, supply, RemoveLiquidityData(lpIn, amount), lpIn, shares))
  }

  /** The pool value, LP supply and LP balance an order is computed from. */
  predicate OrderReads(order: Order, lpToken: Account, lpMint: Account, aum: u128) {
    && order.aum == aum && ReadU64(lpMint.data, 36) == Some(order.supply)
    && ReadU64(lpToken.data, 64) == Some(order.sharesBefore)
  }

  lemma TwoNumbers(head: seq<u8>, first: u64, second: u64, tail: seq<u8>)
    requires |head| == 8
    ensures var data := head + LeBytes64(first) + LeBytes64(second) + tail;
            data[..8] == head && ReadU64(data, 8) == Some(first) && ReadU64(data, 16) == Some(second)
  {
    hide LeBytes64, LeValue, Pow256;
    var data := head + LeBytes64(first) + LeBytes64(second) + tail;
    AppendedField(head + LeBytes64(first), LeBytes64(second), data);
    AppendedField(head, LeBytes64(first), data);
  }

  lemma AddLiquidityBytes(amount: u64, minOut: u64)
    ensures var data := AddLiquidityData(amount, minOut);
            && |data| == 25 && data[..8] == [228, 162, 78, 28, 70, 219, 116, 115] && data[24] == 0
            && ReadU64(data, 8) == Some(amount) && ReadU64(data, 16) == Some(minOut)
  {
    hide ReadU64;
    TwoNumbers(ADD_LIQUIDITY_DISCRIMINATOR, amount, minOut, [0]);
  }

  lemma RemoveLiquidityBytes(lpIn: u64, minOut: u64)
    ensures var data := RemoveLiquidityData(lpIn, minOut);
            && |data| == 24 && data[..8] == [230, 215, 82, 127, 241, 101, 227, 146]
            && ReadU64(data, 8) == Some(lpIn) && ReadU64(data, 16) == Some(minOut)
  {
    hide ReadU64;
    TwoNumbers(REMOVE_LIQUIDITY_DISCRIMINATOR, lpIn, minOut, []);
    assert RemoveLiquidityData(lpIn, minOut) ==
           REMOVE_LIQUIDITY_DISCRIMINATOR + LeBytes64(lpIn) + LeBytes64(minOut) + [];
  }

  /** A deposit asks for 95% of a quote worth no more than the deposit, short of 95% of it by two tokens at most. */
  lemma DepositOrderBounds(lpToken: Account, lpMint: Account, aum: u128, amount: u64)
    requires DepositOrder(lpToken, lpMint, aum, amount).Ok?
    ensures var order := DepositOrder(lpToken, lpMint, aum, amount).value;
            && |order.data| == 25 && order.data[..8] == [228, 162, 78, 28, 70, 219, 116, 115] && order.data[24] == 0
            && ReadU64(order.data, 8) == Some(amount) && ReadU64(order.data, 16) == Some(order.lpGuard)
            && OrderReads(order, lpToken, lpMint, aum)
            && Portion(order.lpGuard, aum, order.supply) <= amount
            && order.lpGuard == UsdcToLpFloor(amount, aum, order.supply).value * 9_500 / 10_000
            && (amount * 9_500 / 10_000 <= Portion(order.lpGuard + 2, aum, order.supply)
                <==> Priced(aum, order.supply) || amount <= 1)
  {
    hide UsdcToLpFloor, ApplyBpsFloor, LpToUsdcFloor, AddLiquidityData, Portion, ReadU64;
    AddLiquidityBytes(amount, DepositOrder(lpToken, lpMint, aum, amount).value.lpGuard);
    var supply := MintSupply(lpMint).value;
    var quoted := UsdcToLpFloor(amount, aum, supply).value;
    QuoteSandwich(amount, aum, supply, quoted);
    ValueOutcome(quoted, aum, supply);
    GuardOutcome(quoted);
    var guarded: int := quoted;
    PortionMono(guarded * 9_500 / 10_000, quoted, aum, aum, supply);
    GuardKeepsValue(amount, aum, supply, quoted, guarded * 9_500 / 10_000);
  }

  /** A withdrawal burns no more than the owner holds, and at a real price enough to cover its buffer. */
  lemma WithdrawOrderBounds(lpToken: Account, lpMint: Account, aum: u128, amount: u64)
    requires WithdrawOrder(lpToken, lpMint, aum, amount).Ok?
    ensures var order := WithdrawOrder(lpToken, lpMint, aum, amount).value;
            && |order.data| == 24 && order.data[..8] == [230, 215, 82, 127, 241, 101, 227, 146]
            && ReadU64(order.data, 8) == Some(order.lpGuard) && ReadU64(order.data, 16) == Some(amount)
            && OrderReads(order, lpToken, lpMint, aum) && order.lpGuard <= order.sharesBefore
            && (amount * 10_100 / 10_000 <= Portion(order.lpGuard, aum, order.supply)
                <==> Priced(aum, order.supply) || amount == 0)
  {
    hide UsdcToLpCeil, ApplyBpsCeil, RemoveLiquidityData, Portion, ReadU64;
    RemoveLiquidityBytes(WithdrawOrder(lpToken, lpMint, aum, amount).value.lpGuard, amount);
    var order := WithdrawOrder(lpToken, lpMint, aum, amount).value;
    BurnKeepsBuffer(amount, aum, order.supply, UsdcToLpCeil(amount, aum, order.supply).value, order.lpGuard);
  }

  /** Exactly when a withdrawal gets past the pool: what the owner holds, less its buffer, is worth it. */
  lemma WithdrawOrderSucceeds(lpToken: Account, lpMint: Account, aum: u128, amount: u64)
    ensures WithdrawOrder(lpToken, lpMint, aum, amount).Ok? <==>
              && MintSupply(lpMint).Ok? && ReadTokenAmount(lpToken, InvalidTokenAccount).Ok?
              && var supply := MintSupply(lpMint).value;
              && var held := ReadTokenAmount(lpToken, InvalidTokenAccount).value;
              && if amount != 0 && Priced(aum, supply)
                 then amount <= Portion(Unbuffered(held), aum, supply) && amount * supply + (aum - 1) < TWO_128
                 else amount <= Unbuffered(held)
  {
    hide UsdcToLpCeil, ApplyBpsCeil, RemoveLiquidityData, Portion, MintSupply, ReadTokenAmount, Unbuffered;
    var (supply, held) := (MintSupply(lpMint), ReadTokenAmount(lpToken, InvalidTokenAccount));
    if supply.Ok? && held.Ok? {
      AffordableExactly(amount, held.value, aum, supply.value);
    }
  }

  /** LP tokens and their value, from the token account, the pool and the mint. */
  function PositionValue(ids: Ids, lpToken: Account, pool: Account, lpMint: Account): Result<(u64, u64), JupiterError> {
    var shares :- ReadTokenAmount(lpToken, InvalidTokenAccount);
    var aum :- PoolAum(pool, ids.perpsProgram, ids.usdcCustody);
    var supply :- MintSupply(lpMint);
    var value :- LpToUsdcFloor(shares, aum, supply);
    Ok((shares, value))
  }

  /** A pair of LP tokens and value as the three accounts have it: the balance and its portion of the pool. */
  predicate Reports(ids: Ids, lpToken: Account, pool: Account, lpMint: Account, shares: u64, value: u64) {
    var (aum, supply) := (PoolAum(pool, ids.perpsProgram, ids.usdcCustody), ReadU64(lpMint.data, 36));
    && aum.Ok? && supply.Some? && ReadU64(lpToken.data, 64) == Some(shares)
    && value == Portion(shares, aum.value, supply.value)
  }

  /** The position's pair for any accounts: reported as they have it, or the first reason why not. */
  lemma PositionValueExact(ids: Ids, lpToken: Account, pool: Account, lpMint: Account)
    ensures var (held, supply) := (ReadU64(lpToken.data, 64), ReadU64(lpMint.data, 36));
            var aum := PoolAum(pool, ids.perpsProgram, ids.usdcCustody);
            PositionValue(ids, lpToken, pool, lpMint) ==
            if held.None? then Err(InvalidTokenAccount)
            else if aum.Err? then Err(aum.error)
            else if supply.None? then Err(InvalidTokenAccount)
            else if TWO_64 <= Portion(held.value, aum.value, supply.value) then Err(MathOverflow)
            else Ok((held.value, Portion(held.value, aum.value, supply.value)))
  {
    hide PoolAum, ReadU64, LpToUsdcFloor, Portion;
    var (held, supply) := (ReadU64(lpToken.data, 64), ReadU64(lpMint.data, 36));
    var aum := PoolAum(pool, ids.perpsProgram, ids.usdcCustody);
    if held.Some? && supply.Some? && aum.Ok? {
      ValueOutcome(held.value, aum.value, supply.value);
    }
  }

  lemma PositionReports(ids: Ids, lpToken: Account, pool: Account, lpMint: Account, shares: u64, value: u64)
    requires PositionValue(ids, lpToken, pool, lpMint) == Ok((shares, value))
    ensures Reports(ids, lpToken, pool, lpMint, shares, value)
  {
    hide PoolAum, ReadU64, Portion, PositionValue;
    PositionValueExact(ids, lpToken, pool, lpMint);
  }

  /** And on encoded accounts: a pool that lists the USDC custody, a mint with its supply at byte 36. */
  lemma EncodedPositionValue(ids: Ids, mint: Pubkey, holder: Pubkey, held: u64, tokenTail: seq<u8>, name: seq<u8>,
                             custodies: seq<Pubkey>, aum: u128, tail: seq<u8>, mintHead: seq<u8>, supply: u64,
                             mintTail: seq<u8>, tokenProgram: Pubkey)
    requires |name| < TWO_32 && |custodies| < TWO_32 && |mintHead| == 36
    ensures PositionValue(ids, Account(tokenProgram, mint + holder + LeBytes64(held) + tokenTail),
                          Account(ids.perpsProgram, EncodePool(name, custodies, aum) + tail),
                          Account(tokenProgram, mintHead + LeBytes64(supply) + mintTail)) ==
            if ids.usdcCustody !in custodies then Err(InvalidPool)
            else if TWO_64 <= Portion(held, aum, supply) then Err(MathOverflow)
            else Ok((held, Portion(held, aum, supply)))
  {
    hide PoolAum, EncodePool, LeBytes64, LeValue, Pow256, Portion, PositionValue, Slice;
    var lpToken := Account(tokenProgram, mint + holder + LeBytes64(held) + tokenTail);
    var lpMint := Account(tokenProgram, mintHead + LeBytes64(supply) + mintTail);
    EncodedTokenAmount(mint, holder, held, tokenTail, tokenProgram, InvalidTokenAccount);
    AppendedField(mintHead, LeBytes64(supply), lpMint.data);
    PoolRoundTrip(name, custodies, aum, tail, ids.perpsProgram, ids.usdcCustody);
    PositionValueExact(ids, lpToken, Account(ids.perpsProgram, EncodePool(name, custodies, aum) + tail), lpMint);
  }

  method ReadPosition(ids: Ids, lpToken: Account, pool: Account, lpMint: Account)
    returns (r: Result<(u64, u64), JupiterError>)
    ensures r == PositionValue(ids, lpToken, pool, lpMint)
  {
    var shares :- ReadTokenAmount(lpToken, InvalidTokenAccount);
    var aum :- ReadPoolAum(pool, ids.perpsProgram, ids.usdcCustody);
    var supply :- MintSupply(lpMint);
    var value :- LpToUsdcFloor(shares, aum, supply);
    return Ok((shares, value));
  }

  /** What the checks let through names the stored accounts and the compiled-in custody and mint. */
  lemma ChecksUseStoredKeys(derive: Deriver, ids: Ids, config: AdapterConfig, keys: Keys, ctx: Context,
                            accounts: Accounts, amount: u64)
    requires || CheckLiquidity(derive, ids, config, keys, ctx, accounts, amount).Ok?
             || CheckValue(ids, config, keys, ctx, accounts).Ok?
    ensures ctx.owner == keys.owner && ctx.lpToken == keys.lpTokenAccount
    ensures ctx.pool == keys.pool == ids.pool && ctx.custody == keys.custody == ids.usdcCustody
    ensures ctx.lpMint == ids.lpMint
  {
    hide CheckTokenAccount, CheckTokenData, CheckPrograms, CheckCustody, CheckCustodyBasic, CheckPerpetuals, PoolAum;
    hide IsFound;
  }

  class Position {
    const ids: Ids
    const keys: Keys
    var depositedAmount: u64
    var shares: u64
    var lastValue: u64

    /** The successful deposits and withdrawals so far, and the accounts the last of them left behind. */
    ghost var history: seq<Op>
    ghost var seen: Option<(Account, Account, Account)>

    ghost predicate Valid()
      reads this
    {
      && Track(history) == Some(depositedAmount)
      && (seen.None? <==> history == [])
      && (seen.None? ==> shares == 0 && lastValue == 0)
      && (seen.Some? ==> PositionValue(ids, seen.value.0, seen.value.1, seen.value.2) == Ok((shares, lastValue)))
    }

    constructor (ids: Ids, keys: Keys)
      ensures Valid() && history == [] && this.ids == ids && this.keys == keys
    {
      this.ids, this.keys := ids, keys;
      depositedAmount, shares, lastValue := 0, 0, 0;
      history, seen := [], None;
    }

    ghost function Triple(accounts: Accounts): (Account, Account, Account)
      reads this
    {
      (Lookup(accounts, keys.lpTokenAccount), Lookup(accounts, keys.pool), Lookup(accounts, ids.lpMint))
    }

    /** Answers the LP tokens minted, which the event reports. */
    method Deposit(derive: Deriver, config: AdapterConfig, ctx: Context, before: Accounts, protocol: Protocol,
                   amount: u64) returns (r: Result<u64, JupiterError>)
      requires Valid()
      modifies this
      ensures Valid()
      ensures r == (var aum :- CheckLiquidity(derive, ids, config, keys, ctx, before, amount);
                    var order :- DepositOrder(Triple(before).0, Triple(before).2, aum, amount);
                    var now :- protocol(order.data).OkOr(ProtocolCpiFailed);
                    var held :- ReadTokenAmount(Triple(now).0, InvalidTokenAccount);
                    if held < order.sharesBefore then Err(MathOverflow) else
                      var _ :- PositionValue(ids, Triple(now).0, Triple(now).1, Triple(now).2);
                      var _ :- CheckedAdd64(old(depositedAmount), amount).OkOr(MathOverflow);
                      Ok(held - order.sharesBefore))
      ensures r.Err? ==> unchanged(this)
      ensures r.Ok? ==>
                && depositedAmount == old(depositedAmount) + amount
                && history == old(history) + [Deposited(amount)]
                && var aum := CheckLiquidity(derive, ids, config, keys, ctx, before, amount).value;
                && var order := DepositOrder(Triple(before).0, Triple(before).2, aum, amount).value;
                && seen == Some(Triple(protocol(order.data).value)) && r.value == shares - order.sharesBefore
                && Reports(ids, seen.value.0, seen.value.1, seen.value.2, shares, lastValue)
    {
      hide PositionValue, Reports, CheckLiquidity, DepositOrder, ReadTokenAmount, Track, Lookup;
      var aum :- CheckLiquidity(derive, ids, config, keys, ctx, before, amount);
      ChecksUseStoredKeys(derive, ids, config, keys, ctx, before, amount);
      var order :- DepositOrder(Lookup(before, ctx.lpToken), Lookup(before, ctx.lpMint), aum, amount);
      var now :- protocol(order.data).OkOr(ProtocolCpiFailed);
      var held :- ReadTokenAmount(Lookup(now, ctx.lpToken), InvalidTokenAccount);
      if held < order.sharesBefore {
        return Err(MathOverflow);
      }
      var read :- ReadPosition(ids, Lookup(now, ctx.lpToken), Lookup(now, ctx.pool), Lookup(now, ctx.lpMint));
      PositionReports(ids, Lookup(now, ctx.lpToken), Lookup(now, ctx.pool), Lookup(now, ctx.lpMint), read.0, read.1);
      SharesAreBalance(ids, Lookup(now, ctx.lpToken), Lookup(now, ctx.pool), Lookup(now, ctx.lpMint));
      var deposited :- CheckedAdd64(depositedAmount, amount).OkOr(MathOverflow);
      depositedAmount := deposited;
      shares, lastValue := read.0, read.1;
      TrackAppend(history, Deposited(amount));
      history := history + [Deposited(amount)];
      seen := Some(Triple(now));
      return Ok(held - order.sharesBefore);
    }

    /** Answers the LP tokens burned, which the event reports. */
    method Withdraw(derive: Deriver, config: AdapterConfig, ctx: Context, before: Accounts, protocol: Protocol,
                    amount: u64) returns (r: Result<u64, JupiterError>)
      requires Valid()
      modifies this
      ensures Valid()
      ensures r == (var aum :- CheckLiquidity(derive, ids, config, keys, ctx, before, amount);
                    var order :- WithdrawOrder(Triple(before).0, Triple(before).2, aum, amount);
                    var now :- protocol(order.data).OkOr(ProtocolCpiFailed);
                    var held :- ReadTokenAmount(Triple(now).0, InvalidTokenAccount);
                    if order.sharesBefore < held then Err(MathOverflow) else
                      var _ :- PositionValue(ids, Triple(now).0, Triple(now).1, Triple(now).2);
                      Ok(order.sharesBefore - held))
      ensures r.Err? ==> unchanged(this)
      ensures r.Ok? ==>
                && depositedAmount == SaturatingSub64(old(depositedAmount), amount)
                && history == old(history) + [Withdrawn(amount)]
                && var aum := CheckLiquidity(derive, ids, config, keys, ctx, before, amount).value;
                && var order := WithdrawOrder(Triple(before).0, Triple(before).2, aum, amount).value;
                && seen == Some(Triple(protocol(order.data).value)) && r.value == order.sharesBefore - shares
                && Reports(ids, seen.value.0, seen.value.1, seen.value.2, shares, lastValue)
    {
      hide PositionValue, Reports, CheckLiquidity, WithdrawOrder, ReadTokenAmount, Track, Lookup;
      var aum :- CheckLiquidity(derive, ids, config, keys, ctx, before, amount);
      ChecksUseStoredKeys(derive, ids, config, keys, ctx, before, amount);
      var order :- WithdrawOrder(Lookup(before, ctx.lpToken), Lookup(before, ctx.lpMint), aum, amount);
      var now :- protocol(order.data).OkOr(ProtocolCpiFailed);
      var held :- ReadTokenAmount(Lookup(now, ctx.lpToken), InvalidTokenAccount);
      if order.sharesBefore < held {
        return Err(MathOverflow);
      }
      var read :- ReadPosition(ids, Lookup(now, ctx.lpToken), Lookup(now, ctx.pool), Lookup(now, ctx.lpMint));
      PositionReports(ids, Lookup(now, ctx.lpToken), Lookup(now, ctx.pool), Lookup(now, ctx.lpMint), read.0, read.1);
      SharesAreBalance(ids, Lookup(now, ctx.lpToken), Lookup(now, ctx.pool), Lookup(now, ctx.lpMint));
      depositedAmount := SaturatingSub64(depositedAmount, amount);
      shares, lastValue := read.0, read.1;
      TrackAppend(history, Withdrawn(amount));
      history := history + [Withdrawn(amount)];
      seen := Some(Triple(now));
      return Ok(order.sharesBefore - held);
    }

    /** Whatever accounts pass the checks, an unchanged protocol state gives back the stored value. */
    method CurrentValue(config: AdapterConfig, ctx: Context, accounts: Accounts) returns (r: Result<u64, JupiterError>)
      requires Valid()
      ensures r == (var aum :- CheckValue(ids, config, keys, ctx, accounts);
                    var held :- ReadTokenAmount(Triple(accounts).0, InvalidTokenAccount);
                    var supply :- MintSupply(Triple(accounts).2);
                    LpToUsdcFloor(held, aum, supply))
      ensures r.Ok? ==>
                var read := PositionValue(ids, Triple(accounts).0, Triple(accounts).1, Triple(accounts).2);
                && read.Ok? && r.value == read.value.1
                && Reports(ids, Triple(accounts).0, Triple(accounts).1, Triple(accounts).2, read.value.0, r.value)
      ensures r.Ok? && seen == Some(Triple(accounts)) ==> r.value == lastValue
    {
      hide CheckMintData, CheckTokenData, CheckCustodyBasic, PoolAum, LpToUsdcFloor, MintSupply, Reports;
      var aum :- CheckValue(ids, config, keys, ctx, accounts);
      ChecksUseStoredKeys((p, s) => None, ids, config, keys, ctx, accounts, 0);
      var held :- ReadTokenAmount(Lookup(accounts, ctx.lpToken), InvalidTokenAccount);
      var supply :- MintSupply(Lookup(accounts, ctx.lpMint));
      var value :- LpToUsdcFloor(held, aum, supply);
      PositionReports(ids, Lookup(accounts, ctx.lpToken), Lookup(accounts, ctx.pool), Lookup(accounts, ctx.lpMint),
                      held, value);
      return Ok(value);
    }
  }

  lemma SharesAreBalance(ids: Ids, lpToken: Account, pool: Account, lpMint: Account)
    requires PositionValue(ids, lpToken, pool, lpMint).Ok?
    ensures ReadTokenAmount(lpToken, InvalidTokenAccount) == Ok(PositionValue(ids, lpToken, pool, lpMint).value.0)
  {
    hide PoolAum, LpToUsdcFloor, MintSupply, ReadTokenAmount;
  }

  method InitializePosition(ids: Ids, owner: Pubkey, pool: Pubkey, custody: Pubkey, lpTokenAccount: Pubkey)
    returns (r: Result<Position, JupiterError>)
    ensures r.Err? <==> pool == DEFAULT_KEY || custody == DEFAULT_KEY || lpTokenAccount == DEFAULT_KEY
    ensures r.Err? ==> r.error == if pool == DEFAULT_KEY then InvalidPool
                                  else if custody == DEFAULT_KEY then InvalidCustody else InvalidTokenAccount
    ensures r.Ok? ==>
              && fresh(r.value) && r.value.Valid() && r.value.history == [] && r.value.ids == ids
              && r.value.keys == Keys(owner, pool, custody, lpTokenAccount)
  {
    if pool == DEFAULT_KEY {
      return Err(InvalidPool);
    }
    if custody == DEFAULT_KEY {
      return Err(InvalidCustody);
    }
    if lpTokenAccount == DEFAULT_KEY {
      return Err(InvalidTokenAccount);
    }
    var position := new Position(ids, Keys(owner, pool, custody, lpTokenAccount));
    return Ok(position);
  }
}
