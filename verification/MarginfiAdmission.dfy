/** What the MarginFi adapter demands of its accounts, error by error. */
module MarginfiAdmission {
  import opened Wrappers
  import opened Bytes
  import opened Accounts
  import opened Pda
  import opened Interface
  import opened FixedPoint
  import opened MarginfiUsdc

  function Check(derive: Deriver, config: AdapterConfig, keys: Keys, ctx: Context, accounts: Accounts, request: Request)
    : Result<(), MarginfiError>
  {
    match request
    case Deposit(amount) => CheckDeposit(derive, config, keys, ctx, accounts, amount)
    case Withdraw(amount) => CheckWithdraw(derive, config, keys, ctx, accounts, amount)
    case CurrentValue => CheckValue(derive, config, keys, ctx, accounts)
  }

  /** The demands that an error stands for; those on a field bind once the account is long enough. */
  predicate Meets(e: MarginfiError, derive: Deriver, config: AdapterConfig, keys: Keys, ctx: Context,
                  accounts: Accounts, request: Request)
  {
    var (account, bank) := (Lookup(accounts, ctx.marginfiAccount), Lookup(accounts, ctx.bank));
    var (whole, complete) := (72 <= |account.data|, 642 <= |bank.data|);
    var token := Lookup(accounts, ctx.ownerTokenAccount);
    var moves := !request.CurrentValue?;
    match e
    case InvalidAmount => moves ==> request.amount != 0
    case InvalidMint =>
      && ctx.mint == config.supportedMint
      && (complete ==> bank.data[8..40] == config.supportedMint && bank.data[40] == 6)
    case InvalidOwner => ctx.owner == keys.owner && (whole ==> account.data[40..72] == keys.owner)
    case InvalidProtocolProgram => ctx.program == config.protocolProgramId
    case InvalidMarginfiAccount => ctx.marginfiAccount == keys.marginfiAccount && account.owner == ctx.program
    case InvalidBank =>
      && ctx.bank == keys.bank && bank.owner == ctx.program
      && (complete ==> bank.data[608] == 1 && bank.data[609] != 0 && bank.data[610..642] != DEFAULT_KEY)
    case InvalidGroup =>
      (complete ==> bank.data[41..73] == ctx.group) && (whole ==> account.data[8..40] == ctx.group)
    case InvalidVault =>
      && (complete && moves ==> bank.data[112..144] == ctx.liquidityVault)
      && (request.Withdraw? ==>
            IsFound(derive, ctx.program, Ascii("liquidity_vault_auth") + ctx.bank, ctx.vaultAuthority))
    case InvalidTokenAccount =>
      moves ==> && token.owner == ctx.tokenProgram
                && (Records(token.data, config.supportedMint, ctx.owner) || EndsEarly(token.data, config.supportedMint))
    case InvalidProtocolAccount =>
      && whole && complete
      && (moves && token.owner == ctx.tokenProgram ==> !EndsEarly(token.data, config.supportedMint))
    case MissingHealthAccounts =>
      request.Withdraw? ==> && 2 <= |ctx.remaining| && ctx.remaining[0] == ctx.bank
                            && (complete ==> ctx.remaining[1] == bank.data[610..642])
    case ProtocolCpiFailed => true
    case MathOverflow => true
    case InvalidFixedPointValue => true
  }

  predicate MeetsAll(derive: Deriver, config: AdapterConfig, keys: Keys, ctx: Context, accounts: Accounts,
                     request: Request)
  {
    forall e :: Meets(e, derive, config, keys, ctx, accounts, request)
  }

  lemma DepositRefusal(derive: Deriver, config: AdapterConfig, keys: Keys, ctx: Context, accounts: Accounts,
                       request: Request)
    requires request.Deposit?
    requires Check(derive, config, keys, ctx, accounts, request).Err?
    ensures !Meets(Check(derive, config, keys, ctx, accounts, request).error,
                   derive, config, keys, ctx, accounts, request)
  {
    hide IsFound, Ascii, Lookup, Records, EndsEarly, CheckTokenData, CheckTokenAccount;
    var token := Lookup(accounts, ctx.ownerTokenAccount);
    TokenAccountExact(token, ctx.tokenProgram, config.supportedMint, ctx.owner,
                      InvalidProtocolAccount, InvalidTokenAccount);
    NotBoth(token.data, config.supportedMint, ctx.owner);
  }

  lemma WithdrawRefusal(derive: Deriver, config: AdapterConfig, keys: Keys, ctx: Context, accounts: Accounts,
                        request: Request)
    requires request.Withdraw?
    requires Check(derive, config, keys, ctx, accounts, request).Err?
    ensures !Meets(Check(derive, config, keys, ctx, accounts, request).error,
                   derive, config, keys, ctx, accounts, request)
  {
    hide IsFound, Ascii, Lookup, Records, EndsEarly, CheckTokenData, CheckTokenAccount;
    var token := Lookup(accounts, ctx.ownerTokenAccount);
    TokenAccountExact(token, ctx.tokenProgram, config.supportedMint, ctx.owner,
                      InvalidProtocolAccount, InvalidTokenAccount);
    NotBoth(token.data, config.supportedMint, ctx.owner);
  }

  lemma ValueRefusal(derive: Deriver, config: AdapterConfig, keys: Keys, ctx: Context, accounts: Accounts,
                     request: Request)
    requires request.CurrentValue?
    requires Check(derive, config, keys, ctx, accounts, request).Err?
    ensures !Meets(Check(derive, config, keys, ctx, accounts, request).error,
                   derive, config, keys, ctx, accounts, request)
  {
    hide IsFound, Ascii, Lookup, Records, EndsEarly, CheckTokenData, CheckTokenAccount;
    var token := Lookup(accounts, ctx.ownerTokenAccount);
    TokenAccountExact(token, ctx.tokenProgram, config.supportedMint, ctx.owner,
                      InvalidProtocolAccount, InvalidTokenAccount);
    NotBoth(token.data, config.supportedMint, ctx.owner);
  }

  lemma Refusal(derive: Deriver, config: AdapterConfig, keys: Keys, ctx: Context, accounts: Accounts, request: Request)
    requires Check(derive, config, keys, ctx, accounts, request).Err?
    ensures !Meets(Check(derive, config, keys, ctx, accounts, request).error,
                   derive, config, keys, ctx, accounts, request)
  {
    hide Check, Meets;
    match request
    case Deposit(_) => DepositRefusal(derive, config, keys, ctx, accounts, request);
    case Withdraw(_) => WithdrawRefusal(derive, config, keys, ctx, accounts, request);
    case CurrentValue => ValueRefusal(derive, config, keys, ctx, accounts, request);
  }

  lemma Admitted(e: MarginfiError, derive: Deriver, config: AdapterConfig, keys: Keys, ctx: Context,
                 accounts: Accounts, request: Request)
    requires Check(derive, config, keys, ctx, accounts, request).Ok?
    ensures Meets(e, derive, config, keys, ctx, accounts, request)
  {
    hide IsFound, Ascii, Lookup, Records, EndsEarly, CheckTokenData, CheckTokenAccount;
    var token := Lookup(accounts, ctx.ownerTokenAccount);
    TokenAccountExact(token, ctx.tokenProgram, config.supportedMint, ctx.owner,
                      InvalidProtocolAccount, InvalidTokenAccount);
    NotBoth(token.data, config.supportedMint, ctx.owner);
  }

  /** A request is admitted exactly when every demand is met, and each refusal names one that is not. */
  lemma Admission(derive: Deriver, config: AdapterConfig, keys: Keys, ctx: Context, accounts: Accounts,
                  request: Request)
    ensures var r := Check(derive, config, keys, ctx, accounts, request);
            && (r.Ok? <==> MeetsAll(derive, config, keys, ctx, accounts, request))
            && (r.Err? ==> !Meets(r.error, derive, config, keys, ctx, accounts, request))
  {
    hide Check, Meets;
    if Check(derive, config, keys, ctx, accounts, request).Ok? {
      forall e ensures Meets(e, derive, config, keys, ctx, accounts, request) {
        Admitted(e, derive, config, keys, ctx, accounts, request);
      }
    } else {
      Refusal(derive, config, keys, ctx, accounts, request);
    }
  }
}
