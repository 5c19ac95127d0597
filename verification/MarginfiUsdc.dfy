/** The MarginFi adapter: user-owned shares read back from protocol accounts after every call. */
module MarginfiUsdc {
  import opened Wrappers
  import opened MachineInts
  import opened Bytes
  import opened Accounts
  import opened Pda
  import opened NetDeposits
  import opened FixedPoint
  import opened BalanceScan

  const BANK_MINT_OFFSET := 8
  const BANK_MINT_DECIMALS_OFFSET := 40
  const BANK_GROUP_OFFSET := 41
  const BANK_ASSET_SHARE_VALUE_OFFSET := 80
  const BANK_LIQUIDITY_VAULT_OFFSET := 112
  const BANK_OPERATIONAL_STATE_OFFSET := 608
  const BANK_ORACLE_SETUP_OFFSET := 609
  const BANK_ORACLE_KEYS_OFFSET := 610
  const MARGINFI_ACCOUNT_GROUP_OFFSET := 8
  const MARGINFI_ACCOUNT_AUTHORITY_OFFSET := 40

  /** The accounts a caller passes; an instruction that lacks one of the optional accounts ignores it. */
  datatype Context = Context(
    owner: Pubkey,
    mint: Pubkey,
    program: Pubkey,
    group: Pubkey,
    marginfiAccount: Pubkey,
    bank: Pubkey,
    ownerTokenAccount: Pubkey,
    liquidityVault: Pubkey,
    vaultAuthority: Pubkey,
    tokenProgram: Pubkey,
    remaining: seq<Pubkey>
  )

  datatype Keys = Keys(owner: Pubkey, marginfiAccount: Pubkey, bank: Pubkey)

  const DEPOSIT_IX_DISCRIMINATOR: seq<u8> := [171, 94, 235, 103, 82, 64, 212, 140]
  const WITHDRAW_IX_DISCRIMINATOR: seq<u8> := [36, 72, 74, 19, 210, 210, 192, 192]

  /** The trailing bytes are the absent deposit limit and a withdraw-all flag that is present and false. */
  function DepositData(amount: u64): seq<u8> {
    DEPOSIT_IX_DISCRIMINATOR + LeBytes64(amount) + [0]
  }

  function WithdrawData(amount: u64): seq<u8> {
    WITHDRAW_IX_DISCRIMINATOR + LeBytes64(amount) + [1, 0]
  }

  lemma InstructionBytes(amount: u64)
    ensures var data := DepositData(amount);
            && |data| == 17 && data[..8] == [171, 94, 235, 103, 82, 64, 212, 140]
            && ReadU64(data, 8) == Some(amount) && data[16] == 0
    ensures var data := WithdrawData(amount);
            && |data| == 18 && data[..8] == [36, 72, 74, 19, 210, 210, 192, 192]
            && ReadU64(data, 8) == Some(amount) && data[16] == 1 && data[17] == 0
  {
    NumberAt(DEPOSIT_IX_DISCRIMINATOR, amount, [0]);
    NumberAt(WITHDRAW_IX_DISCRIMINATOR, amount, [1, 0]);
  }

  function CheckOwnerAndMint(config: AdapterConfig, keys: Keys, ctx: Context): Result<(), MarginfiError> {
    if ctx.mint != config.supportedMint then Err(InvalidMint)
    else if ctx.owner != keys.owner then Err(InvalidOwner)
    else Ok(())
  }

  function CheckBank(derive: Deriver, config: AdapterConfig, ctx: Context, bank: seq<u8>,
                     withVault: bool, withAuthority: bool): Result<(), MarginfiError> {
    if |bank| < BANK_ORACLE_KEYS_OFFSET + 32 then Err(InvalidProtocolAccount)
    else if !KeyIs(bank, BANK_MINT_OFFSET, config.supportedMint) then Err(InvalidMint)
    else if bank[BANK_MINT_DECIMALS_OFFSET] != 6 then Err(InvalidMint)
    else if !KeyIs(bank, BANK_GROUP_OFFSET, ctx.group) then Err(InvalidGroup)
    else if bank[BANK_OPERATIONAL_STATE_OFFSET] != 1 then Err(InvalidBank)
    else if bank[BANK_ORACLE_SETUP_OFFSET] == 0 then Err(InvalidBank)
    else if KeyIs(bank, BANK_ORACLE_KEYS_OFFSET, DEFAULT_KEY) then Err(InvalidBank)
    else if withVault && !KeyIs(bank, BANK_LIQUIDITY_VAULT_OFFSET, ctx.liquidityVault) then Err(InvalidVault)
    else if withAuthority
            && !IsFound(derive, ctx.program, Ascii("liquidity_vault_auth") + ctx.bank, ctx.vaultAuthority)
    then Err(InvalidVault)
    else Ok(())
  }

  function CheckProtocolState(derive: Deriver, config: AdapterConfig, keys: Keys, ctx: Context, accounts: Accounts,
                              withVault: bool, withAuthority: bool): Result<(), MarginfiError> {
    var account := Lookup(accounts, ctx.marginfiAccount);
    var bank := Lookup(accounts, ctx.bank);
    if ctx.program != config.protocolProgramId then Err(InvalidProtocolProgram)
    else if ctx.marginfiAccount != keys.marginfiAccount then Err(InvalidMarginfiAccount)
    else if ctx.bank != keys.bank then Err(InvalidBank)
    else if account.owner != ctx.program then Err(InvalidMarginfiAccount)
    else if bank.owner != ctx.program then Err(InvalidBank)
    else
      var _ :- CheckBank(derive, config, ctx, bank.data, withVault, withAuthority);
      if |account.data| < MARGINFI_ACCOUNT_AUTHORITY_OFFSET + 32 then Err(InvalidProtocolAccount)
      else if !KeyIs(account.data, MARGINFI_ACCOUNT_GROUP_OFFSET, ctx.group) then Err(InvalidGroup)
      else if !KeyIs(account.data, MARGINFI_ACCOUNT_AUTHORITY_OFFSET, keys.owner) then Err(InvalidOwner)
      else Ok(())
  }

  function CheckUserToken(config: AdapterConfig, ctx: Context, accounts: Accounts): Result<(), MarginfiError> {
    CheckTokenAccount(Lookup(accounts, ctx.ownerTokenAccount), ctx.tokenProgram, config.supportedMint, ctx.owner,
                      InvalidProtocolAccount, InvalidTokenAccount)
  }

  function CheckDeposit(derive: Deriver, config: AdapterConfig, keys: Keys, ctx: Context, accounts: Accounts,
                        amount: u64): Result<(), MarginfiError> {
    if amount == 0 then Err(InvalidAmount) else
      var _ :- CheckOwnerAndMint(config, keys, ctx);
      var _ :- CheckProtocolState(derive, config, keys, ctx, accounts, true, false);
      CheckUserToken(config, ctx, accounts)
  }

  /** A withdrawal must also name the bank and its primary oracle first among the remaining accounts. */
  function CheckHealthAccounts(ctx: Context, accounts: Accounts): Result<(), MarginfiError> {
    var bank := Lookup(accounts, ctx.bank).data;
    if |ctx.remaining| < 2 then Err(MissingHealthAccounts)
    else if |bank| < BANK_ORACLE_KEYS_OFFSET + 32 then Err(InvalidProtocolAccount)
    else if ctx.remaining[0] != ctx.bank then Err(MissingHealthAccounts)
    else if !KeyIs(bank, BANK_ORACLE_KEYS_OFFSET, ctx.remaining[1]) then Err(MissingHealthAccounts)
    else Ok(())
  }

  function CheckWithdraw(derive: Deriver, config: AdapterConfig, keys: Keys, ctx: Context, accounts: Accounts,
                         amount: u64): Result<(), MarginfiError> {
    if amount == 0 then Err(InvalidAmount) else
      var _ :- CheckOwnerAndMint(config, keys, ctx);
      var _ :- CheckProtocolState(derive, config, keys, ctx, accounts, true, true);
      var _ :- CheckUserToken(config, ctx, accounts);
      CheckHealthAccounts(ctx, accounts)
  }

  function CheckValue(derive: Deriver, config: AdapterConfig, keys: Keys, ctx: Context, accounts: Accounts)
    : Result<(), MarginfiError> {
    var _ :- CheckOwnerAndMint(config, keys, ctx);
    CheckProtocolState(derive, config, keys, ctx, accounts, false, false)
  }

  /** What the checks let through names the accounts stored in the position. */
  lemma ChecksUseStoredKeys(derive: Deriver, config: AdapterConfig, keys: Keys, ctx: Context, accounts: Accounts,
                            amount: u64)
    requires || CheckDeposit(derive, config, keys, ctx, accounts, amount).Ok?
             || CheckWithdraw(derive, config, keys, ctx, accounts, amount).Ok?
             || CheckValue(derive, config, keys, ctx, accounts).Ok?
    ensures ctx.owner == keys.owner && ctx.marginfiAccount == keys.marginfiAccount && ctx.bank == keys.bank
  {
    hide CheckBank, CheckUserToken, CheckHealthAccounts;
  }

  /** Whole shares and their value in native units, from the account's and the bank's data. */
  function PositionValue(account: Account, bank: Account, bankKey: Pubkey): Result<(u64, u64), MarginfiError> {
    var assetShares :- SharesFrom(account.data, bankKey, 0);
    var shareValue :- ReadI80F48Raw(bank.data, BANK_ASSET_SHARE_VALUE_OFFSET);
    var shares :- FloorToU64(assetShares);
    var value :- MulFloorToU64(assetShares, shareValue);
    Ok((shares, value))
  }

  method ReadPosition(accounts: Accounts, accountKey: Pubkey, bankKey: Pubkey)
    returns (r: Result<(u64, u64), MarginfiError>)
    ensures r == PositionValue(Lookup(accounts, accountKey), Lookup(accounts, bankKey), bankKey)
  {
    var assetShares :- ReadAssetSharesForBank(Lookup(accounts, accountKey).data, bankKey);
    var shareValue :- ReadI80F48Raw(Lookup(accounts, bankKey).data, BANK_ASSET_SHARE_VALUE_OFFSET);
    var shares :- FloorToU64(assetShares);
    var value :- MulFloorToU64(assetShares, shareValue);
    return Ok((shares, value));
  }

  /** A pair of whole shares and value as account and bank have it. */
  predicate Reports(account: Account, bank: Account, bankKey: Pubkey, shares: u64, value: u64) {
    var (raw, rate) := (SharesFrom(account.data, bankKey, 0), ReadU128(bank.data, 80));
    && raw.Ok? && rate.Some? && shares * ONE <= raw.value < (shares + 1) * ONE
    && value == Truncated(raw.value, rate.value)
  }

  /** The pair for raw shares at a raw share value, with the error of whichever step cannot be represented. */
  function Pair(raw: u128, rate: u128): Result<(u64, u64), MarginfiError> {
    if TWO_127 <= rate || TWO_64 * ONE <= raw then Err(InvalidFixedPointValue)
    else if TWO_128 <= Truncated(raw, rate) then Err(MathOverflow)
    else if TWO_64 <= Truncated(raw, rate) then Err(InvalidFixedPointValue)
    else Ok((raw / ONE, Truncated(raw, rate)))
  }

  /** The position's pair for any accounts: reported as they have it, or the first reason why not. */
  lemma PositionValueExact(account: Account, bank: Account, bankKey: Pubkey)
    ensures var (raw, rate) := (SharesFrom(account.data, bankKey, 0), ReadU128(bank.data, 80));
            PositionValue(account, bank, bankKey) ==
            if raw.Err? then Err(raw.error)
            else if rate.None? then Err(InvalidProtocolAccount)
            else Pair(raw.value, rate.value)
  {
    hide SharesFrom, ReadU128, Truncated, MulFloorToU64, FloorToU64;
    var (raw, rate) := (SharesFrom(account.data, bankKey, 0), ReadU128(bank.data, 80));
    if raw.Ok? && rate.Some? && rate.value < TWO_127 {
      ScanWithin(account.data, bankKey, 0);
      MulOutcome(raw.value, rate.value);
      FloorParts(raw.value);
    }
  }

  lemma FloorParts(raw: u128)
    ensures FloorToU64(raw) == if TWO_64 * ONE <= raw then Err(InvalidFixedPointValue) else Ok(raw / ONE)
    ensures raw / ONE * ONE <= raw < (raw / ONE + 1) * ONE
  {
    FloorExact(raw);
  }

  lemma PositionReports(account: Account, bank: Account, bankKey: Pubkey, shares: u64, value: u64)
    requires PositionValue(account, bank, bankKey) == Ok((shares, value))
    ensures Reports(account, bank, bankKey, shares, value)
  {
    hide SharesFrom, ReadU128, Truncated, PositionValue;
    PositionValueExact(account, bank, bankKey);
    FloorParts(SharesFrom(account.data, bankKey, 0).value);
  }

  /** And on encoded accounts: a balance table, and a bank with its share value at byte 80. */
  lemma EncodedPositionValue(account: seq<u8>, header: seq<u8>, slots: seq<Slot>, tail: seq<u8>, bank: seq<u8>,
                             rate: u128, bankTail: seq<u8>, bankKey: Pubkey, program: Pubkey)
    requires Layout(account, header, slots, tail) && |bank| == 80
    ensures PositionValue(Account(program, account), Account(program, bank + LeBytes128(rate) + bankTail), bankKey) ==
            (var raw :- Answer(slots, bankKey); Pair(raw, rate))
  {
    hide SharesFrom, LeBytes128, LeValue, Pow256, Pair, PositionValue, Layout;
    ScanOfLayout(account, header, slots, tail, bankKey);
    AppendedField(bank, LeBytes128(rate), bank + LeBytes128(rate) + bankTail);
    PositionValueExact(Account(program, account), Account(program, bank + LeBytes128(rate) + bankTail), bankKey);
  }

  class Position {
    const keys: Keys
    var depositedAmount: u64
    var shares: u64
    var lastValue: u64

    /** The successful deposits and withdrawals so far, and the accounts the last of them left behind. */
    ghost var history: seq<Op>
    ghost var seen: Option<(Account, Account)>

    ghost predicate Valid()
      reads this
    {
      && Track(history) == Some(depositedAmount)
      && (seen.None? <==> history == [])
      && (seen.None? ==> shares == 0 && lastValue == 0)
      && (seen.Some? ==> PositionValue(seen.value.0, seen.value.1, keys.bank) == Ok((shares, lastValue)))
    }

    constructor (keys: Keys)
      ensures Valid() && history == [] && this.keys == keys
    {
      this.keys := keys;
      depositedAmount, shares, lastValue := 0, 0, 0;
      history, seen := [], None;
    }

    ghost function Both(accounts: Accounts): (Account, Account)
      reads this
    {
      (Lookup(accounts, keys.marginfiAccount), Lookup(accounts, keys.bank))
    }

    method Deposit(derive: Deriver, config: AdapterConfig, ctx: Context, before: Accounts, protocol: Protocol,
                   amount: u64) returns (r: Result<(), MarginfiError>)
      requires Valid()
      modifies this
      ensures Valid()
      ensures r == (var _ :- CheckDeposit(derive, config, keys, ctx, before, amount);
                    var now :- protocol(DepositData(amount)).OkOr(ProtocolCpiFailed);
                    var _ :- PositionValue(Both(now).0, Both(now).1, keys.bank);
                    var _ :- CheckedAdd64(old(depositedAmount), amount).OkOr(MathOverflow);
                    Ok(()))
      ensures r.Err? ==> unchanged(this)
      ensures r.Ok? ==>
                && depositedAmount == old(depositedAmount) + amount
                && history == old(history) + [Deposited(amount)]
                && seen == Some(Both(protocol(DepositData(amount)).value))
                && Reports(seen.value.0, seen.value.1, keys.bank, shares, lastValue)
    {
      hide Track, Lookup, Reports, PositionValue, DepositData, CheckDeposit;
      var _ :- CheckDeposit(derive, config, keys, ctx, before, amount);
      ChecksUseStoredKeys(derive, config, keys, ctx, before, amount);
      var now :- protocol(DepositData(amount)).OkOr(ProtocolCpiFailed);
      var read :- ReadPosition(now, ctx.marginfiAccount, ctx.bank);
      PositionReports(Lookup(now, ctx.marginfiAccount), Lookup(now, ctx.bank), ctx.bank, read.0, read.1);
      var deposited :- CheckedAdd64(depositedAmount, amount).OkOr(MathOverflow);
      depositedAmount := deposited;
      shares, lastValue := read.0, read.1;
      TrackAppend(history, Deposited(amount));
      history := history + [Deposited(amount)];
      seen := Some(Both(now));
      return Ok(());
    }

    method Withdraw(derive: Deriver, config: AdapterConfig, ctx: Context, before: Accounts, protocol: Protocol,
                    amount: u64) returns (r: Result<(), MarginfiError>)
      requires Valid()
      modifies this
      ensures Valid()
      ensures r == (var _ :- CheckWithdraw(derive, config, keys, ctx, before, amount);
                    var now :- protocol(WithdrawData(amount)).OkOr(ProtocolCpiFailed);
                    var _ :- PositionValue(Both(now).0, Both(now).1, keys.bank);
                    Ok(()))
      ensures r.Err? ==> unchanged(this)
      ensures r.Ok? ==>
                && depositedAmount == SaturatingSub64(old(depositedAmount), amount)
                && history == old(history) + [Withdrawn(amount)]
                && seen == Some(Both(protocol(WithdrawData(amount)).value))
                && Reports(seen.value.0, seen.value.1, keys.bank, shares, lastValue)
    {
      hide Track, Lookup, Reports, PositionValue, WithdrawData, CheckWithdraw;
      var _ :- CheckWithdraw(derive, config, keys, ctx, before, amount);
      ChecksUseStoredKeys(derive, config, keys, ctx, before, amount);
      var now :- protocol(WithdrawData(amount)).OkOr(ProtocolCpiFailed);
      var read :- ReadPosition(now, ctx.marginfiAccount, ctx.bank);
      PositionReports(Lookup(now, ctx.marginfiAccount), Lookup(now, ctx.bank), ctx.bank, read.0, read.1);
      depositedAmount := SaturatingSub64(depositedAmount, amount);
      shares, lastValue := read.0, read.1;
      TrackAppend(history, Withdrawn(amount));
      history := history + [Withdrawn(amount)];
      seen := Some(Both(now));
      return Ok(());
    }

    /** Whatever accounts pass the checks, an unchanged protocol state gives back the stored value. */
    method CurrentValue(derive: Deriver, config: AdapterConfig, ctx: Context, accounts: Accounts)
      returns (r: Result<u64, MarginfiError>)
      requires Valid()
      ensures r == (var _ :- CheckValue(derive, config, keys, ctx, accounts);
                    var read :- PositionValue(Both(accounts).0, Both(accounts).1, keys.bank);
                    Ok(read.1))
      ensures r.Ok? ==> exists shares :: Reports(Both(accounts).0, Both(accounts).1, keys.bank, shares, r.value)
      ensures r.Ok? && seen == Some(Both(accounts)) ==> r.value == lastValue
    {
      hide Track, Lookup, Reports, PositionValue, CheckValue;
      var _ :- CheckValue(derive, config, keys, ctx, accounts);
      ChecksUseStoredKeys(derive, config, keys, ctx, accounts, 0);
      var read :- ReadPosition(accounts, ctx.marginfiAccount, ctx.bank);
      PositionReports(Lookup(accounts, ctx.marginfiAccount), Lookup(accounts, ctx.bank), ctx.bank, read.0, read.1);
      return Ok(read.1);
    }
  }

  method InitializePosition(owner: Pubkey, marginfiAccount: Pubkey, bank: Pubkey)
    returns (r: Result<Position, MarginfiError>)
    ensures r.Err? <==> marginfiAccount == DEFAULT_KEY || bank == DEFAULT_KEY
    ensures r.Err? ==> r.error == if marginfiAccount == DEFAULT_KEY then InvalidMarginfiAccount else InvalidBank
    ensures r.Ok? ==>
              && fresh(r.value) && r.value.Valid() && r.value.history == []
              && r.value.keys == Keys(owner, marginfiAccount, bank)
  {
    if marginfiAccount == DEFAULT_KEY {
      return Err(InvalidMarginfiAccount);
    }
    if bank == DEFAULT_KEY {
      return Err(InvalidBank);
    }
    var position := new Position(Keys(owner, marginfiAccount, bank));
    return Ok(position);
  }
}
