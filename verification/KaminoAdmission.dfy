/** What the Kamino adapter demands of its accounts, error by error. */
module KaminoAdmission {
  import opened Wrappers
  import opened MachineInts
  import opened Accounts
  import opened Pda
  import opened Interface
  import opened KaminoRate
  import opened KaminoUsdc

  function Check(derive: Deriver, config: AdapterConfig, keys: Keys, ctx: Context, accounts: Accounts, request: Request)
    : Result<(), KaminoError>
  {
    match request
    case Deposit(amount) => CheckDeposit(derive, config, keys, ctx, accounts, amount)
    case Withdraw(amount) =>
      var _ :- CheckWithdraw(derive, config, keys, ctx, accounts, amount);
      Ok(())
    case CurrentValue => CheckValue(config, keys, ctx, accounts)
  }

  /** The demands that an error stands for; those on a reserve's fields bind once the reserve can be read. */
  predicate Meets(e: KaminoError, derive: Deriver, config: AdapterConfig, keys: Keys, ctx: Context, accounts: Accounts,
                  request: Request)
  {
    var moves := !request.CurrentValue?;
    var reserve := Lookup(accounts, ctx.reserve);
    var fields := ReadReserveFields(reserve.data);
    var (liquidity, collateral) := (Lookup(accounts, ctx.userLiquidity), Lookup(accounts, ctx.userCollateral));
    match e
    case InvalidAmount => moves ==> request.amount != 0
    case InvalidMint =>
      && ctx.mint == config.supportedMint
      && (fields.Ok? ==> fields.value.liquidityMint == config.supportedMint)
      && (fields.Ok? && moves ==> ctx.liquidityMint == fields.value.liquidityMint)
    case InvalidOwner => ctx.owner == keys.owner
    case InvalidProtocolProgram => ctx.program == config.protocolProgramId
    case InvalidReserve =>
      && ctx.reserve == keys.reserve
      && (2600 <= |reserve.data| ==> reserve.data[..8] == [43, 242, 204, 202, 26, 247, 59, 127])
    case InvalidProtocolAccount =>
      && reserve.owner == ctx.program && 2600 <= |reserve.data|
      && (moves && liquidity.owner == ctx.liquidityTokenProgram ==> !EndsEarly(liquidity.data, config.supportedMint))
      && (fields.Ok? && (moves ==> collateral.owner == ctx.collateralTokenProgram) ==>
            !EndsEarly(collateral.data, fields.value.collateralMint))
    case InvalidLendingMarket =>
      fields.Ok? && moves ==>
        && ctx.lendingMarket == fields.value.lendingMarket
        && IsFound(derive, ctx.program, Ascii("lma") + ctx.lendingMarket, ctx.lendingMarketAuthority)
    case InvalidVault =>
      fields.Ok? && moves ==>
        ctx.liquiditySupply == fields.value.liquiditySupply && ctx.collateralMint == fields.value.collateralMint
    case InvalidTokenAccount =>
      && ctx.userCollateral == keys.collateralTokenAccount
      && (moves ==>
            && liquidity.owner == ctx.liquidityTokenProgram
            && (Records(liquidity.data, config.supportedMint, ctx.owner)
                || EndsEarly(liquidity.data, config.supportedMint))
            && collateral.owner == ctx.collateralTokenProgram)
      && (fields.Ok? ==>
            && (moves ==> ctx.liquidityTokenProgram == fields.value.liquidityTokenProgram)
            && (Records(collateral.data, fields.value.collateralMint, ctx.owner)
                || EndsEarly(collateral.data, fields.value.collateralMint)))
    case InvalidInstructionSysvar => moves ==> ctx.instructionSysvar == ctx.sysvarId
    case ProtocolCpiFailed => true
    case MathOverflow => true
  }

  predicate MeetsAll(derive: Deriver, config: AdapterConfig, keys: Keys, ctx: Context, accounts: Accounts,
                     request: Request)
  {
    forall e :: Meets(e, derive, config, keys, ctx, accounts, request)
  }

  lemma Refusal(derive: Deriver, config: AdapterConfig, keys: Keys, ctx: Context, accounts: Accounts, request: Request)
    requires Check(derive, config, keys, ctx, accounts, request).Err?
    ensures !Meets(Check(derive, config, keys, ctx, accounts, request).error,
                   derive, config, keys, ctx, accounts, request)
  {
    hide IsFound, Ascii, Lookup, Records, EndsEarly, CheckTokenData, CheckTokenAccount, ReadReserveFields;
    var (liquidity, collateral) := (Lookup(accounts, ctx.userLiquidity), Lookup(accounts, ctx.userCollateral));
    var fields := ReadReserveFields(Lookup(accounts, ctx.reserve).data);
    ReserveRefusal(Lookup(accounts, ctx.reserve).data);
    TokenAccountExact(liquidity, ctx.liquidityTokenProgram, config.supportedMint, ctx.owner,
                      InvalidProtocolAccount, InvalidTokenAccount);
    NotBoth(liquidity.data, config.supportedMint, ctx.owner);
    if fields.Ok? {
      TokenAccountExact(collateral, ctx.collateralTokenProgram, fields.value.collateralMint, ctx.owner,
                        InvalidProtocolAccount, InvalidTokenAccount);
      TokenDataExact(collateral, fields.value.collateralMint, ctx.owner, InvalidProtocolAccount, InvalidTokenAccount);
      NotBoth(collateral.data, fields.value.collateralMint, ctx.owner);
    }
  }

  lemma Admitted(e: KaminoError, derive: Deriver, config: AdapterConfig, keys: Keys, ctx: Context, accounts: Accounts,
                 request: Request)
    requires Check(derive, config, keys, ctx, accounts, request).Ok?
    ensures Meets(e, derive, config, keys, ctx, accounts, request)
  {
    hide IsFound, Ascii, Lookup, Records, EndsEarly, CheckTokenData, CheckTokenAccount, ReadReserveFields;
    var (liquidity, collateral) := (Lookup(accounts, ctx.userLiquidity), Lookup(accounts, ctx.userCollateral));
    var fields := ReadReserveFields(Lookup(accounts, ctx.reserve).data);
    ReserveRefusal(Lookup(accounts, ctx.reserve).data);
    TokenAccountExact(liquidity, ctx.liquidityTokenProgram, config.supportedMint, ctx.owner,
                      InvalidProtocolAccount, InvalidTokenAccount);
    NotBoth(liquidity.data, config.supportedMint, ctx.owner);
    if fields.Ok? {
      TokenAccountExact(collateral, ctx.collateralTokenProgram, fields.value.collateralMint, ctx.owner,
                        InvalidProtocolAccount, InvalidTokenAccount);
      TokenDataExact(collateral, fields.value.collateralMint, ctx.owner, InvalidProtocolAccount, InvalidTokenAccount);
      NotBoth(collateral.data, fields.value.collateralMint, ctx.owner);
    }
  }

  /** A request is admitted exactly when every demand is met, and each refusal names one that is not. */
  lemma Admission(derive: Deriver, config: AdapterConfig, keys: Keys, ctx: Context, accounts: Accounts,
                  request: Request)
    ensures var r := Check(derive, config, keys, ctx, accounts, request);
            && (r.Ok? <==> MeetsAll(derive, config, keys, ctx, accounts, request))
            && (r.Err? ==> !Meets(r.error, derive, config, keys, ctx, accounts, request))
  {
    hide Check, Meets;
    if Check(derive, config, keys, ctx, accounts, request).Ok? {
      forall e ensures Meets(e, derive, config, keys, ctx, accounts, request) {
        Admitted(e, derive, config, keys, ctx, accounts, request);
      }
    } else {
      Refusal(derive, config, keys, ctx, accounts, request);
    }
  }

  lemma ReserveRefusal(data: seq<u8>)
    ensures ReadReserveFields(data).Ok? <==> 2600 <= |data| && data[..8] == [43, 242, 204, 202, 26, 247, 59, 127]
    ensures ReadReserveFields(data).Err? ==>
              ReadReserveFields(data).error == if 2600 <= |data| then InvalidReserve else InvalidProtocolAccount
  {}
}
