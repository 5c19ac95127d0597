/** The Maple adapter's instructions, moving tokens and rewriting positions in place. */
module MapleSyrup {
  import opened Wrappers
  import opened MachineInts
  import opened Bytes
  import opened FeedRing
  import opened MapleCustody

  class Program {
    const env: Env
    var tokens: map<Pubkey, Token>
    var positions: map<Pubkey, Position>

    ghost predicate Valid()
      reads this
    {
      Sound(env, Now())
    }

    function Now(): World
      reads this
    {
      World(tokens, positions)
    }

    constructor (env: Env, tokens: map<Pubkey, Token>)
      ensures Valid() && this.env == env && this.tokens == tokens && positions == map[]
    {
      this.env := env;
      this.tokens := tokens;
      positions := map[];
    }

    method InitializePosition(owner: Pubkey, vault: Pubkey) returns (r: Result<(), MapleError>)
      requires Valid() && UserSigned(env, Open(owner, vault))
      modifies this
      ensures Valid() && Now() == Step(env, old(Now()), Open(owner, vault))
      ensures r == (var _ :- AfterOpen(env, old(Now()), owner, vault); Ok(()))
    {
      var key := env.positionOf(owner);
      if key in positions {
        return Err(AccountInUse);
      }
      if vault == DEFAULT_KEY {
        return Err(InvalidTokenAccount);
      }
      positions := positions[key := Position(owner, vault, 0, 0, 0)];
      return Ok(());
    }

    /** Pulls `amount` from the owner into the vault, then records it and revalues the whole vault. */
    method Deposit(p: Passed, amount: u64) returns (r: Result<(), MapleError>)
      requires Valid() && UserSigned(env, MapleCustody.Deposit(p, amount))
      modifies this
      ensures Valid() && Now() == Step(env, old(Now()), MapleCustody.Deposit(p, amount))
      ensures r == (var _ :- AfterDeposit(env, old(Now()), p, amount); Ok(()))
      ensures r.Err? ==> unchanged(this)
    {
      hide CheckMove, SharesToUsdcValue, Sound, Transfer;
      StepSound(env, Now(), MapleCustody.Deposit(p, amount));
      var _ :- CheckMove(env, Now(), p, amount);
      MoveChecked(env, Now(), p, amount);
      var moved :- Transfer(tokens, p.userToken, p.vault, amount).OkOr(ProtocolCpiFailed);
      TransferKeepsAccounts(tokens, p.userToken, p.vault, amount);
      var shares := moved[p.vault].amount;
      var value :- SharesToUsdcValue(shares, p.feedAccount.data);
      var position := positions[p.position];
      var deposited :- CheckedAdd64(position.deposited, amount).OkOr(MathOverflow);
      tokens := moved;
      positions := positions[p.position := position.(deposited := deposited, shares := shares, lastValue := value)];
      return Ok(());
    }

    /** Returns `amount` from the vault; more than the vault holds is refused before the transfer. */
    method Withdraw(p: Passed, amount: u64) returns (r: Result<(), MapleError>)
      requires Valid() && UserSigned(env, MapleCustody.Withdraw(p, amount))
      modifies this
      ensures Valid() && Now() == Step(env, old(Now()), MapleCustody.Withdraw(p, amount))
      ensures r == (var _ :- AfterWithdraw(env, old(Now()), p, amount); Ok(()))
      ensures r.Err? ==> unchanged(this)
    {
      hide CheckMove, SharesToUsdcValue, Sound, Transfer;
      StepSound(env, Now(), MapleCustody.Withdraw(p, amount));
      var _ :- CheckMove(env, Now(), p, amount);
      MoveChecked(env, Now(), p, amount);
      if tokens[p.vault].amount < amount {
        return Err(InvalidAmount);
      }
      var moved :- Transfer(tokens, p.vault, p.userToken, amount).OkOr(ProtocolCpiFailed);
      TransferKeepsAccounts(tokens, p.vault, p.userToken, amount);
      var shares := moved[p.vault].amount;
      var value :- SharesToUsdcValue(shares, p.feedAccount.data);
      var position := positions[p.position];
      tokens := moved;
      positions := positions[p.position := position.(
        deposited := SaturatingSub64(position.deposited, amount), shares := shares, lastValue := value)];
      return Ok(());
    }

    method CurrentValue(p: Passed) returns (r: Result<u64, MapleError>)
      requires Valid()
      ensures r == ValueNow(env, Now(), p)
    {
      hide SharesToUsdcValue;
      var _ :- CheckIdentity(env, Now(), p);
      if !TokenIs(tokens, p.vault, env.mint, p.position) {
        return Err(InvalidTokenAccount);
      }
      var _ :- CheckFeed(env, p);
      var value :- SharesToUsdcValue(tokens[p.vault].amount, p.feedAccount.data);
      return Ok(value);
    }
  }

  lemma MoveChecked(env: Env, w: World, p: Passed, amount: u64)
    requires CheckMove(env, w, p, amount).Ok?
    ensures p.position in w.positions && p.vault == w.positions[p.position].vault
    ensures p.userToken in w.tokens && p.vault in w.tokens
  {}

  lemma TransferKeepsAccounts(tokens: map<Pubkey, Token>, from: Pubkey, to: Pubkey, amount: u64)
    requires Transfer(tokens, from, to, amount).Some?
    ensures Transfer(tokens, from, to, amount).value.Keys == tokens.Keys
  {}

  /** What `ValueNow` must be given for its checks to pass, apart from the feed's own answer. */
  predicate SameView(p: Passed, q: Passed) {
    q.position == p.position && q.feedAccount.data == p.feedAccount.data
  }

  /** Right after a move, every successful query over the same feed data answers the stored value. */
  lemma StoredValueAgrees(env: Env, w: World, tx: Tx, q: Passed)
    requires tx.Deposit? || tx.Withdraw?
    requires Apply(env, w, tx).Ok? && SameView(tx.passed, q)
    ensures var w' := Apply(env, w, tx).value;
            && tx.passed.position in w'.positions
            && (ValueNow(env, w', q).Ok? ==> ValueNow(env, w', q).value == w'.positions[q.position].lastValue)
  {
    hide SharesToUsdcValue, Transfer;
    var p := tx.passed;
    MoveChecked(env, w, p, tx.amount);
  }

  /** And the caller of a move can always query it again with the accounts just passed. */
  lemma QuerySucceedsAfterMove(env: Env, w: World, tx: Tx)
    requires tx.Deposit? || tx.Withdraw?
    requires Sound(env, w) && UserSigned(env, tx) && Apply(env, w, tx).Ok?
    ensures var w' := Apply(env, w, tx).value;
            && tx.passed.position in w'.positions
            && ValueNow(env, w', tx.passed) == Ok(w'.positions[tx.passed.position].lastValue)
  {
    hide SharesToUsdcValue, Transfer;
    var p := tx.passed;
    MoveChecked(env, w, p, tx.amount);
    match tx
    case Deposit(_, amount) => DepositFacts(env, w, p, amount);
    case Withdraw(_, amount) => WithdrawFacts(env, w, p, amount);
  }
}
