/** What the Jupiter adapter demands of its accounts, error by error. */
module JupiterAdmission {
  import opened Wrappers
  import opened MachineInts
  import opened Accounts
  import opened Pda
  import opened Interface
  import opened JupiterRate
  import opened JupiterPool
  import opened JupiterLp

  function Check(derive: Deriver, ids: Ids, config: AdapterConfig, keys: Keys, ctx: Context, accounts: Accounts,
                 request: Request): Result<u128, JupiterError>
  {
    match request
    case Deposit(amount) => CheckLiquidity(derive, ids, config, keys, ctx, accounts, amount)
    case Withdraw(amount) => CheckLiquidity(derive, ids, config, keys, ctx, accounts, amount)
    case CurrentValue => CheckValue(ids, config, keys, ctx, accounts)
  }

  /** The demands that an error stands for, apart from those of the two parsers. */
  predicate MeetsOwn(e: JupiterError, derive: Deriver, ids: Ids, config: AdapterConfig, keys: Keys, ctx: Context,
                     accounts: Accounts, request: Request)
  {
    var moves := !request.CurrentValue?;
    var (userToken, lpToken) := (Lookup(accounts, ctx.userToken), Lookup(accounts, ctx.lpToken));
    var (lpMint, custody) := (Lookup(accounts, ctx.lpMint), Lookup(accounts, ctx.custody));
    var complete := 416 <= |custody.data|;
    match e
    case InvalidAmount => moves ==> request.amount != 0
    case InvalidMint => ctx.mint == config.supportedMint && (complete ==> custody.data[40..72] == config.supportedMint)
    case InvalidOwner => ctx.owner == keys.owner
    case InvalidProtocolProgram => moves ==> ctx.program == config.protocolProgramId && ctx.program == ids.perpsProgram
    case InvalidPerpetuals => moves ==> IsFound(derive, ctx.program, Ascii("perpetuals"), ctx.perpetuals)
    case InvalidTransferAuthority =>
      moves ==> IsFound(derive, ctx.program, Ascii("transfer_authority"), ctx.transferAuthority)
    case InvalidEventAuthority =>
      moves ==> IsFound(derive, ctx.program, Ascii("__event_authority"), ctx.eventAuthority)
    case InvalidPool => ctx.pool == keys.pool && ctx.pool == ids.pool
    case InvalidCustody =>
      && ctx.custody == keys.custody && ctx.custody == ids.usdcCustody && custody.owner == ids.perpsProgram
      && complete && custody.data[..8] == [1, 184, 48, 81, 93, 131, 63, 145] && custody.data[8..40] == ctx.pool
      && (moves ==>
            && custody.data[72..104] == ctx.custodyToken && custody.data[384..416] == ctx.dovesPrice == ids.dovesAgPrice
            && custody.data[106..138] == ctx.pythnetPrice)
    case InvalidTokenAccount =>
      && ctx.lpToken == keys.lpTokenAccount && Records(lpToken.data, ids.lpMint, ctx.owner)
      && ctx.lpMint == ids.lpMint && 45 <= |lpMint.data| && lpMint.data[44] == 6
      && (moves ==>
            && ctx.tokenProgram == ids.tokenProgram
            && userToken.owner == ctx.tokenProgram && Records(userToken.data, config.supportedMint, ctx.owner)
            && lpToken.owner == ctx.tokenProgram && lpMint.owner == ctx.tokenProgram
            && IsFound(derive, ctx.program, Ascii("lp_token_mint") + ctx.pool, ctx.lpMint))
    case ProtocolCpiFailed => true
    case MathOverflow => true
  }

  /** And those of the parsers: neither refuses its account with the error. */
  predicate Meets(e: JupiterError, derive: Deriver, ids: Ids, config: AdapterConfig, keys: Keys, ctx: Context,
                  accounts: Accounts, request: Request)
  {
    && MeetsOwn(e, derive, ids, config, keys, ctx, accounts, request)
    && (!request.CurrentValue? ==>
          CheckPerpetuals(Lookup(accounts, ctx.perpetuals), ids.perpsProgram, ctx.pool) != Err(e))
    && PoolAum(Lookup(accounts, ctx.pool), ids.perpsProgram, ctx.custody) != Err(e)
  }

  predicate MeetsAll(derive: Deriver, ids: Ids, config: AdapterConfig, keys: Keys, ctx: Context, accounts: Accounts,
                     request: Request)
  {
    forall e :: Meets(e, derive, ids, config, keys, ctx, accounts, request)
  }

  lemma ProgramsRefusal(derive: Deriver, ids: Ids, config: AdapterConfig, keys: Keys, ctx: Context, accounts: Accounts,
                        request: Request)
    requires !request.CurrentValue? && CheckPrograms(derive, ids, config, ctx).Err?
    ensures !MeetsOwn(CheckPrograms(derive, ids, config, ctx).error, derive, ids, config, keys, ctx, accounts, request)
  {
    hide IsFound, Ascii, Lookup, Records, CheckTokenData, CheckTokenAccount;
  }

  lemma TokensRefusal(derive: Deriver, ids: Ids, config: AdapterConfig, keys: Keys, ctx: Context, accounts: Accounts,
                      request: Request)
    requires !request.CurrentValue? && CheckTokens(derive, ids, config, ctx, accounts).Err?
    ensures !MeetsOwn(CheckTokens(derive, ids, config, ctx, accounts).error,
                      derive, ids, config, keys, ctx, accounts, request)
  {
    hide IsFound, Ascii, Lookup, Records, CheckTokenData, CheckTokenAccount;
    TokensExact(ids, config, ctx, accounts);
  }

  lemma CustodyRefusal(derive: Deriver, ids: Ids, config: AdapterConfig, keys: Keys, ctx: Context, accounts: Accounts,
                       request: Request)
    requires !request.CurrentValue? && CheckCustody(ids, config, ctx, accounts).Err?
    ensures !MeetsOwn(CheckCustody(ids, config, ctx, accounts).error, derive, ids, config, keys, ctx, accounts, request)
  {
    hide IsFound, Ascii, Lookup, Records, CheckTokenData, CheckTokenAccount;
  }

  lemma MoveRefusal(derive: Deriver, ids: Ids, config: AdapterConfig, keys: Keys, ctx: Context, accounts: Accounts,
                    request: Request)
    requires !request.CurrentValue? && Check(derive, ids, config, keys, ctx, accounts, request).Err?
    ensures !Meets(Check(derive, ids, config, keys, ctx, accounts, request).error,
                   derive, ids, config, keys, ctx, accounts, request)
  {
    hide CheckPrograms, CheckTokens, CheckCustody, Lookup, CheckPerpetuals, PoolAum, IsFound, Ascii, Records;
    if CheckPrograms(derive, ids, config, ctx).Err? {
      ProgramsRefusal(derive, ids, config, keys, ctx, accounts, request);
    } else if CheckTokens(derive, ids, config, ctx, accounts).Err? {
      TokensRefusal(derive, ids, config, keys, ctx, accounts, request);
    }
    if CheckCustody(ids, config, ctx, accounts).Err? {
      CustodyRefusal(derive, ids, config, keys, ctx, accounts, request);
    }
  }

  lemma ValueRefusal(derive: Deriver, ids: Ids, config: AdapterConfig, keys: Keys, ctx: Context, accounts: Accounts,
                     request: Request)
    requires request.CurrentValue? && Check(derive, ids, config, keys, ctx, accounts, request).Err?
    ensures !Meets(Check(derive, ids, config, keys, ctx, accounts, request).error,
                   derive, ids, config, keys, ctx, accounts, request)
  {
    hide IsFound, Ascii, Lookup, Records, CheckTokenData, CheckTokenAccount, PoolAum;
    TokensExact(ids, config, ctx, accounts);
  }

  lemma Refusal(derive: Deriver, ids: Ids, config: AdapterConfig, keys: Keys, ctx: Context, accounts: Accounts,
                request: Request)
    requires Check(derive, ids, config, keys, ctx, accounts, request).Err?
    ensures !Meets(Check(derive, ids, config, keys, ctx, accounts, request).error,
                   derive, ids, config, keys, ctx, accounts, request)
  {
    hide Check, Meets;
    if request.CurrentValue? {
      ValueRefusal(derive, ids, config, keys, ctx, accounts, request);
    } else {
      MoveRefusal(derive, ids, config, keys, ctx, accounts, request);
    }
  }

  lemma Admitted(e: JupiterError, derive: Deriver, ids: Ids, config: AdapterConfig, keys: Keys, ctx: Context,
                 accounts: Accounts, request: Request)
    requires Check(derive, ids, config, keys, ctx, accounts, request).Ok?
    ensures Meets(e, derive, ids, config, keys, ctx, accounts, request)
    ensures Check(derive, ids, config, keys, ctx, accounts, request) ==
            PoolAum(Lookup(accounts, ctx.pool), ids.perpsProgram, ids.usdcCustody)
  {
    hide IsFound, Ascii, Lookup, Records, CheckTokenData, CheckTokenAccount, CheckPerpetuals, PoolAum;
    TokensExact(ids, config, ctx, accounts);
  }

  lemma TokensExact(ids: Ids, config: AdapterConfig, ctx: Context, accounts: Accounts)
    ensures CheckTokenAccount(Lookup(accounts, ctx.userToken), ctx.tokenProgram, config.supportedMint, ctx.owner,
                              InvalidTokenAccount, InvalidTokenAccount) ==
            if Lookup(accounts, ctx.userToken).owner == ctx.tokenProgram
               && Records(Lookup(accounts, ctx.userToken).data, config.supportedMint, ctx.owner)
            then Ok(()) else Err(InvalidTokenAccount)
    ensures CheckTokenAccount(Lookup(accounts, ctx.lpToken), ctx.tokenProgram, ids.lpMint, ctx.owner,
                              InvalidTokenAccount, InvalidTokenAccount) ==
            if Lookup(accounts, ctx.lpToken).owner == ctx.tokenProgram
               && Records(Lookup(accounts, ctx.lpToken).data, ids.lpMint, ctx.owner)
            then Ok(()) else Err(InvalidTokenAccount)
    ensures CheckTokenData(Lookup(accounts, ctx.lpToken), ids.lpMint, ctx.owner,
                           InvalidTokenAccount, InvalidTokenAccount) ==
            if Records(Lookup(accounts, ctx.lpToken).data, ids.lpMint, ctx.owner)
            then Ok(()) else Err(InvalidTokenAccount)
  {
    hide Lookup, CheckTokenData, CheckTokenAccount, Records, EndsEarly;
    var (userToken, lpToken) := (Lookup(accounts, ctx.userToken), Lookup(accounts, ctx.lpToken));
    TokenAccountExact(userToken, ctx.tokenProgram, config.supportedMint, ctx.owner,
                      InvalidTokenAccount, InvalidTokenAccount);
    TokenAccountExact(lpToken, ctx.tokenProgram, ids.lpMint, ctx.owner, InvalidTokenAccount, InvalidTokenAccount);
    TokenDataExact(lpToken, ids.lpMint, ctx.owner, InvalidTokenAccount, InvalidTokenAccount);
  }

  /** A request is admitted exactly when every demand is met, and each refusal names one that is not. */
  lemma Admission(derive: Deriver, ids: Ids, config: AdapterConfig, keys: Keys, ctx: Context, accounts: Accounts,
                  request: Request)
    ensures var r := Check(derive, ids, config, keys, ctx, accounts, request);
            && (r.Ok? <==> MeetsAll(derive, ids, config, keys, ctx, accounts, request))
            && (r.Ok? ==> r == PoolAum(Lookup(accounts, ctx.pool), ids.perpsProgram, ids.usdcCustody))
            && (r.Err? ==> !Meets(r.error, derive, ids, config, keys, ctx, accounts, request))
  {
    hide Check, Meets, PoolAum;
    if Check(derive, ids, config, keys, ctx, accounts, request).Ok? {
      Admitted(InvalidAmount, derive, ids, config, keys, ctx, accounts, request);
      forall e ensures Meets(e, derive, ids, config, keys, ctx, accounts, request) {
        Admitted(e, derive, ids, config, keys, ctx, accounts, request);
      }
    } else {
      Refusal(derive, ids, config, keys, ctx, accounts, request);
    }
  }
}
