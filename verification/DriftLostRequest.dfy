/** How a Drift position loses sight of a withdrawal request: by two calls on one position. */
module DriftLostRequest {
  import opened Wrappers
  import opened MachineInts
  import opened Bytes
  import opened Accounts
  import opened Pda
  import opened NetDeposits
  import opened DriftInsuranceFund

  /** Whether a withdrawal gets through: its checks pass, and what the protocol leaves behind can be valued. */
  ghost predicate Admitted(derive: Deriver, config: AdapterConfig, keys: Keys, ctx: Context, before: Accounts,
                           protocol: Protocol, amount: u64) {
    && CheckWithdraw(derive, config, keys, ctx, before, amount).Ok?
    && var now := protocol(RequestData(REQUEST_REMOVE_DISCRIMINATOR, keys.marketIndex, amount));
       now.Some? && StoredValue(derive, config, keys, now.value).Ok?
  }

  /** Two withdrawals that get through, one after the other: only the second is still recorded as pending. */
  method SecondRequestReplaces(position: Position, derive: Deriver, config: AdapterConfig, ctx: Context,
                               before: Accounts, protocol: Protocol, first: u64,
                               between: Accounts, protocol': Protocol, second: u64)
    requires position.Valid()
    requires Admitted(derive, config, position.keys, ctx, before, protocol, first)
    requires Admitted(derive, config, position.keys, ctx, between, protocol', second)
    modifies position
    ensures position.Valid()
    ensures position.history == old(position.history) + [Withdrawn(first), Withdrawn(second)]
    ensures position.pendingWithdrawAmount == second < Requested(position.history)
    ensures Requested(position.history) == old(Requested(position.history)) + first + second
    ensures position.depositedAmount == old(position.depositedAmount)
  {
    hide CheckWithdraw, StoredValue, Requested, Pending, TotalDeposited, PositionValue, RequestData, Sources;
    RequestedAppend(position.history, Withdrawn(first));
    RequestedAppend(position.history + [Withdrawn(first)], Withdrawn(second));
    RequestPositive(derive, config, position.keys, ctx, before, first);
    var r := position.Withdraw(derive, config, ctx, before, protocol, first);
    r := position.Withdraw(derive, config, ctx, between, protocol', second);
  }

  lemma RequestPositive(derive: Deriver, config: AdapterConfig, keys: Keys, ctx: Context, before: Accounts, amount: u64)
    requires CheckWithdraw(derive, config, keys, ctx, before, amount).Ok?
    ensures 0 < amount
  {}

  lemma {:induction false} ZerosAreZero(s: seq<u8>)
    requires forall i | 0 <= i < |s| :: s[i] == 0
    ensures LeValue(s) == 0
  {
    if s == [] {
    } else {
      ZerosAreZero(s[1..]);
    }
  }

  /** The smallest accounts that pass: one blank address for everything, holding nothing. */
  function Blank(): Account {
    Account(DEFAULT_KEY, seq(SPOT_MARKET_TOTAL_SHARES_OFFSET + 16, _ => 0))
  }

  lemma BlankReads(offset: nat, width: nat)
    requires offset + width <= SPOT_MARKET_TOTAL_SHARES_OFFSET + 16
    ensures Slice(Blank().data, offset, width) == Some(seq(width, _ => 0))
    ensures LeValue(seq(width, _ => 0)) == 0
  {
    assert Blank().data[offset..offset + width] == seq(width, _ => 0);
    ZerosAreZero(seq(width, _ => 0));
  }

  lemma BlankKey(offset: nat)
    requires offset + 32 <= SPOT_MARKET_TOTAL_SHARES_OFFSET + 16
    ensures KeyIs(Blank().data, offset, DEFAULT_KEY)
  {
    BlankReads(offset, 32);
    assert DEFAULT_KEY == seq(32, _ => 0);
  }

  const BLANK_KEYS := Keys(DEFAULT_KEY, DEFAULT_KEY, DEFAULT_KEY, 0)
  const BLANK_CONFIG := AdapterConfig(DEFAULT_KEY, DEFAULT_KEY, DEFAULT_KEY, 0, 255)
  const BLANK_CONTEXT := Context(DEFAULT_KEY, DEFAULT_KEY, DEFAULT_KEY, DEFAULT_KEY, DEFAULT_KEY, DEFAULT_KEY,
                                 DEFAULT_KEY, DEFAULT_KEY, DEFAULT_KEY, DEFAULT_KEY, DEFAULT_KEY, DEFAULT_KEY)

  function Everywhere(program: Pubkey, seeds: seq<u8>): Option<Pubkey> {
    Some(DEFAULT_KEY)
  }

  lemma BlankAdmitted(protocol: Protocol, amount: u64)
    requires 0 < amount && forall data :: protocol(data) == Some(map[DEFAULT_KEY := Blank()])
    ensures Admitted(Everywhere, BLANK_CONFIG, BLANK_KEYS, BLANK_CONTEXT, map[DEFAULT_KEY := Blank()], protocol, amount)
  {
    hide Blank, KeyIs, LeValue, Ascii, StakeSeeds, SpotMarketSeeds, VaultSeeds, RequestData;
    BlankValued();
    BlankChecked(amount);
  }

  lemma BlankChecked(amount: u64)
    requires 0 < amount
    ensures CheckWithdraw(Everywhere, BLANK_CONFIG, BLANK_KEYS, BLANK_CONTEXT, map[DEFAULT_KEY := Blank()], amount).Ok?
  {
    hide KeyIs, LeValue, Ascii, StakeSeeds, SpotMarketSeeds, VaultSeeds;
    BlankKey(STAKE_AUTHORITY_OFFSET);
    BlankReads(STAKE_MARKET_INDEX_OFFSET, 2);
    BlankKey(SPOT_MARKET_PUBKEY_OFFSET);
    BlankKey(SPOT_MARKET_MINT_OFFSET);
    BlankKey(SPOT_MARKET_IF_VAULT_OFFSET);
  }

  lemma BlankValued()
    ensures PositionValue(Blank(), Blank(), Blank()) == Ok((0, 0))
  {
    hide LeValue, Blank;
    BlankReads(STAKE_SHARES_OFFSET, 16);
    BlankReads(STAKE_REQUEST_SHARES_OFFSET, 16);
    BlankReads(STAKE_REQUEST_VALUE_OFFSET, 8);
    BlankReads(SPOT_MARKET_TOTAL_SHARES_OFFSET, 16);
    BlankReads(TOKEN_ACCOUNT_AMOUNT_OFFSET, 8);
  }

  /** So a position really does lose a request: after asking for 5 and then 3, it records 3 of the 8. */
  method LoseRequest() returns (position: Position)
    ensures fresh(position) && position.Valid() && position.history == [Withdrawn(5), Withdrawn(3)]
    ensures position.pendingWithdrawAmount == 3 && Requested(position.history) == 8
  {
    hide Blank, Admitted;
    position := new Position(BLANK_KEYS);
    var accounts := map[DEFAULT_KEY := Blank()];
    var protocol: Protocol := _ => Some(accounts);
    BlankAdmitted(protocol, 5);
    BlankAdmitted(protocol, 3);
    SecondRequestReplaces(position, Everywhere, BLANK_CONFIG, BLANK_CONTEXT, accounts, protocol, 5,
                          accounts, protocol, 3);
  }
}
