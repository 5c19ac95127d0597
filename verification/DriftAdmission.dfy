/** What the Drift adapter demands of its accounts, error by error. */
module DriftAdmission {
  import opened Wrappers
  import opened Bytes
  import opened Accounts
  import opened Pda
  import opened Interface
  import opened DriftRate
  import opened DriftInsuranceFund

  function Check(derive: Deriver, config: AdapterConfig, keys: Keys, ctx: Context, accounts: Accounts, request: Request)
    : Result<(), DriftError>
  {
    match request
    case Deposit(amount) => CheckDeposit(derive, config, keys, ctx, accounts, amount)
    case Withdraw(amount) => CheckWithdraw(derive, config, keys, ctx, accounts, amount)
    case CurrentValue => CheckValue(derive, config, keys, ctx, accounts)
  }

  /** The demands that an error stands for; those on a field bind once the account reaches that far. */
  predicate Meets(e: DriftError, derive: Deriver, config: AdapterConfig, keys: Keys, ctx: Context, accounts: Accounts,
                  request: Request)
  {
    var (spot, stake) := (Lookup(accounts, ctx.spotMarket), Lookup(accounts, ctx.stake));
    var (userStats, vault) := (Lookup(accounts, ctx.userStats), Lookup(accounts, ctx.vault));
    var token := Lookup(accounts, ctx.userToken);
    var (moves, program) := (!request.CurrentValue?, config.protocolProgramId);
    match e
    case InvalidAmount => moves ==> request.amount != 0
    case InvalidMint =>
      ctx.mint == config.supportedMint && (104 <= |spot.data| ==> spot.data[72..104] == config.supportedMint)
    case InvalidOwner => ctx.owner == keys.owner && (40 <= |stake.data| ==> stake.data[8..40] == keys.owner)
    case InvalidProtocolProgram => ctx.program == program
    case InvalidProtocolAccount =>
      && (request.Deposit? ==> Lookup(accounts, ctx.state).owner == ctx.program)
      && spot.owner == ctx.program && stake.owner == ctx.program && (moves ==> userStats.owner == ctx.program)
      && 122 <= |stake.data| && 336 <= |spot.data|
      && (request.Deposit? && token.owner == ctx.tokenProgram ==> !EndsEarly(token.data, config.supportedMint))
      && (request.Deposit? && vault.owner == ctx.tokenProgram ==> 32 <= |vault.data|)
    case InvalidSpotMarket =>
      && IsFound(derive, program, SpotMarketSeeds(keys.marketIndex), ctx.spotMarket)
      && (40 <= |spot.data| ==> spot.data[8..40] == ctx.spotMarket)
    case InvalidInsuranceFundStake =>
      && ctx.stake == keys.stake && IsFound(derive, program, StakeSeeds(keys.owner, keys.marketIndex), ctx.stake)
      && (122 <= |stake.data| ==> ReadU16(stake.data, 120) == Some(keys.marketIndex))
    case InvalidUserStats => moves ==> ctx.userStats == keys.userStats
    case InvalidVault =>
      && IsFound(derive, program, VaultSeeds(keys.marketIndex), ctx.vault)
      && (336 <= |spot.data| ==> spot.data[304..336] == ctx.vault)
      && (request.Deposit? ==>
            && (136 <= |spot.data| ==> spot.data[104..136] == ctx.spotMarketVault)
            && IsFound(derive, program, Ascii("drift_signer"), ctx.signer))
    case InvalidTokenAccount =>
      request.Deposit? ==>
        && token.owner == ctx.tokenProgram && vault.owner == ctx.tokenProgram
        && (Records(token.data, config.supportedMint, ctx.owner) || EndsEarly(token.data, config.supportedMint))
        && (32 <= |vault.data| ==> vault.data[..32] == config.supportedMint)
    case ProtocolCpiFailed => true
    case MathOverflow => true
  }

  predicate MeetsAll(derive: Deriver, config: AdapterConfig, keys: Keys, ctx: Context, accounts: Accounts,
                     request: Request)
  {
    forall e :: Meets(e, derive, config, keys, ctx, accounts, request)
  }

  lemma CommonRefusal(derive: Deriver, config: AdapterConfig, keys: Keys, ctx: Context, accounts: Accounts,
                      request: Request)
    requires CheckCommonAccounts(derive, config, keys, ctx, accounts, !request.CurrentValue?).Err?
    ensures !Meets(CheckCommonAccounts(derive, config, keys, ctx, accounts, !request.CurrentValue?).error,
                   derive, config, keys, ctx, accounts, request)
  {
    hide IsFound, Ascii, Lookup, Records, EndsEarly, CheckTokenData, CheckTokenAccount, LeValue, Pow256;
    hide SpotMarketSeeds, StakeSeeds, VaultSeeds;
  }

  lemma TokensRefusal(derive: Deriver, config: AdapterConfig, keys: Keys, ctx: Context, accounts: Accounts,
                      request: Request)
    requires request.Deposit? && CheckDepositTokens(derive, config, ctx, accounts).Err?
    ensures !Meets(CheckDepositTokens(derive, config, ctx, accounts).error,
                   derive, config, keys, ctx, accounts, request)
  {
    hide IsFound, Ascii, Lookup, Records, EndsEarly, CheckTokenData, CheckTokenAccount, LeValue, Pow256;
    hide SpotMarketSeeds, StakeSeeds, VaultSeeds;
    var token := Lookup(accounts, ctx.userToken);
    TokenAccountExact(token, ctx.tokenProgram, config.supportedMint, ctx.owner,
                      InvalidProtocolAccount, InvalidTokenAccount);
    NotBoth(token.data, config.supportedMint, ctx.owner);
  }

  lemma Refusal(derive: Deriver, config: AdapterConfig, keys: Keys, ctx: Context, accounts: Accounts,
                request: Request)
    requires Check(derive, config, keys, ctx, accounts, request).Err?
    ensures !Meets(Check(derive, config, keys, ctx, accounts, request).error,
                   derive, config, keys, ctx, accounts, request)
  {
    hide CheckCommonAccounts, CheckDepositTokens, IsFound, Ascii, Lookup, Records, EndsEarly;
    hide SpotMarketSeeds, StakeSeeds, VaultSeeds;
    if CheckCommonAccounts(derive, config, keys, ctx, accounts, !request.CurrentValue?).Err? {
      CommonRefusal(derive, config, keys, ctx, accounts, request);
    }
    if request.Deposit? && CheckDepositTokens(derive, config, ctx, accounts).Err? {
      TokensRefusal(derive, config, keys, ctx, accounts, request);
    }
  }

  lemma Admitted(e: DriftError, derive: Deriver, config: AdapterConfig, keys: Keys, ctx: Context, accounts: Accounts,
                 request: Request)
    requires Check(derive, config, keys, ctx, accounts, request).Ok?
    ensures Meets(e, derive, config, keys, ctx, accounts, request)
  {
    hide IsFound, Ascii, Lookup, Records, EndsEarly, CheckTokenData, CheckTokenAccount, LeValue, Pow256;
    hide SpotMarketSeeds, StakeSeeds, VaultSeeds;
    var token := Lookup(accounts, ctx.userToken);
    TokenAccountExact(token, ctx.tokenProgram, config.supportedMint, ctx.owner,
                      InvalidProtocolAccount, InvalidTokenAccount);
    NotBoth(token.data, config.supportedMint, ctx.owner);
  }

  /** A request is admitted exactly when every demand is met, and each refusal names one that is not. */
  lemma Admission(derive: Deriver, config: AdapterConfig, keys: Keys, ctx: Context, accounts: Accounts,
                  request: Request)
    ensures var r := Check(derive, config, keys, ctx, accounts, request);
            && (r.Ok? <==> MeetsAll(derive, config, keys, ctx, accounts, request))
            && (r.Err? ==> !Meets(r.error, derive, config, keys, ctx, accounts, request))
  {
    hide Check, Meets;
    if Check(derive, config, keys, ctx, accounts, request).Ok? {
      forall e ensures Meets(e, derive, config, keys, ctx, accounts, request) {
        Admitted(e, derive, config, keys, ctx, accounts, request);
      }
    } else {
      Refusal(derive, config, keys, ctx, accounts, request);
    }
  }
}
