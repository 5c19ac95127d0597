/** When Maple deposits and withdrawals succeed, and what an unusable price feed does to a vault. */
module MapleAccess {
  import opened Wrappers
  import opened MachineInts
  import opened Bytes
  import opened CheckedRatio
  import opened Solvency
  import opened FeedRing
  import opened MapleCustody
  import opened MapleSyrup

  /** The accounts of a position's owner: position, mint, programs and feed, and the two token accounts. */
  predicate OwnAccounts(env: Env, w: World, p: Passed) {
    && p.position in w.positions && p.owner == w.positions[p.position].owner
    && p.vault == w.positions[p.position].vault
    && p.mint == env.mint && p.tokenProgram == env.tokenProgram
    && p.feed == env.feed && p.feedAccount.owner == env.feedProgram
    && TokenIs(w.tokens, p.userToken, env.mint, p.owner) && TokenIs(w.tokens, p.vault, env.mint, p.position)
  }

  lemma MoveAdmitted(env: Env, w: World, p: Passed, amount: u64)
    ensures CheckMove(env, w, p, amount).Ok? <==> OwnAccounts(env, w, p) && amount != 0
  {}

  /** Exactly when a withdrawal succeeds: the vault holds it, the owner can take it, the rest can be priced. */
  lemma WithdrawSucceeds(env: Env, w: World, p: Passed, amount: u64)
    requires Sound(env, w) && UserSigned(env, Withdraw(p, amount))
    ensures AfterWithdraw(env, w, p, amount).Ok? <==>
              && OwnAccounts(env, w, p) && 0 < amount <= w.tokens[p.vault].amount
              && w.tokens[p.userToken].amount + amount < TWO_64
              && SharesToUsdcValue(w.tokens[p.vault].amount - amount, p.feedAccount.data).Ok?
  {
    hide CheckMove, SharesToUsdcValue, Sound;
    MoveAdmitted(env, w, p, amount);
    if OwnAccounts(env, w, p) && amount != 0 {
      Apart(env, w, p, Withdraw(p, amount));
    }
  }

  /** Exactly when a deposit succeeds; under the custody invariant its own counter cannot overflow. */
  lemma DepositSucceeds(env: Env, w: World, p: Passed, amount: u64)
    requires Sound(env, w) && UserSigned(env, Deposit(p, amount))
    ensures AfterDeposit(env, w, p, amount).Ok? <==>
              && OwnAccounts(env, w, p) && 0 < amount <= w.tokens[p.userToken].amount
              && w.tokens[p.vault].amount + amount < TWO_64
              && SharesToUsdcValue(w.tokens[p.vault].amount + amount, p.feedAccount.data).Ok?
  {
    hide CheckMove, SharesToUsdcValue, Sound;
    MoveAdmitted(env, w, p, amount);
    if OwnAccounts(env, w, p) && amount != 0 {
      Apart(env, w, p, Deposit(p, amount));
    }
  }

  /** An owner's token account is never the vault, and the vault covers what is recorded. */
  lemma Apart(env: Env, w: World, p: Passed, tx: Tx)
    requires Sound(env, w) && UserSigned(env, tx) && OwnAccounts(env, w, p) && tx.Signer() == p.owner
    ensures p.userToken != p.vault
    ensures w.positions[p.position].deposited <= w.tokens[p.vault].amount
  {
    assert env.positionOf(w.positions[p.position].owner) == p.position;
  }

  /**
   Whoever can query a position can withdraw any part of its vault, as far as the receiving account has
   room: pricing what is left never fails where pricing the whole succeeded.
   */
  lemma QueriedVaultWithdrawable(env: Env, w: World, p: Passed, amount: u64)
    requires Sound(env, w) && UserSigned(env, Withdraw(p, amount))
    requires ValueNow(env, w, p).Ok? && TokenIs(w.tokens, p.userToken, env.mint, p.owner)
    ensures p.vault in w.tokens
    ensures AfterWithdraw(env, w, p, amount).Ok? <==>
            0 < amount <= w.tokens[p.vault].amount && w.tokens[p.userToken].amount + amount < TWO_64
  {
    hide SharesToUsdcValue, Sound, AfterWithdraw;
    WithdrawSucceeds(env, w, p, amount);
    if amount <= w.tokens[p.vault].amount {
      FewerSharesPriced(w.tokens[p.vault].amount, w.tokens[p.vault].amount - amount, p.feedAccount.data);
    }
  }

  /** While the feed has no usable answer, nothing can be deposited, withdrawn or valued. */
  lemma UnusableFeedLocksVault(env: Env, w: World, p: Passed, amount: u64)
    requires ReadFeedAnswer(p.feedAccount.data).Err?
    ensures AfterDeposit(env, w, p, amount).Err? && AfterWithdraw(env, w, p, amount).Err? && ValueNow(env, w, p).Err?
  {
    hide ReadFeedAnswer, CheckMove, Transfer;
  }

  /**
   Over every run: the owner of a position whose vault is still its own, at a feed that prices the vault,
   can take out any amount up to what was recorded, and its receiving account can hold.
   */
  lemma OwnerCanWithdraw(env: Env, w: World, txs: seq<Tx>, p: Passed, amount: u64)
    requires w.positions == map[] && forall tx | tx in txs :: UserSigned(env, tx)
    requires UserSigned(env, Withdraw(p, amount))
    requires OwnAccounts(env, Run(env, w, txs), p) && ValueNow(env, Run(env, w, txs), p).Ok?
    requires 0 < amount <= Run(env, w, txs).positions[p.position].deposited
    requires Run(env, w, txs).tokens[p.userToken].amount + amount < TWO_64
    ensures AfterWithdraw(env, Run(env, w, txs), p, amount).Ok?
  {
    hide Run, SharesToUsdcValue, AfterWithdraw, Sound;
    CustodyHolds(env, w, txs, p.vault);
    Apart(env, Run(env, w, txs), p, Withdraw(p, amount));
    QueriedVaultWithdrawable(env, Run(env, w, txs), p, amount);
  }

  /** A new position is empty, its owner's, and names the vault it was given; nothing else changes. */
  lemma OpenStores(env: Env, w: World, owner: Pubkey, vault: Pubkey)
    ensures var (r, key) := (AfterOpen(env, w, owner, vault), env.positionOf(owner));
            && (r == Err(AccountInUse) <==> key in w.positions)
            && (r == Err(InvalidTokenAccount) <==> key !in w.positions && vault == DEFAULT_KEY)
            && (r.Ok? <==> key !in w.positions && vault != DEFAULT_KEY)
            && (r.Ok? ==>
                  && r.value.tokens == w.tokens && key in r.value.positions && r.value.positions - {key} == w.positions
                  && r.value.positions[key].owner == owner && r.value.positions[key].vault == vault
                  && r.value.positions[key].deposited == 0 && r.value.positions[key].shares == 0
                  && r.value.positions[key].lastValue == 0)
  {}

  /** The demands a refused move's error stands for, before the transfer. */
  predicate Meets(e: MapleError, env: Env, w: World, p: Passed, amount: u64) {
    var known := p.position in w.positions;
    match e
    case AccountNotInitialized => known
    case InvalidAmount => amount != 0
    case InvalidMint => p.mint == env.mint
    case InvalidOwner => known ==> p.owner == w.positions[p.position].owner
    case InvalidProtocolProgram => p.tokenProgram == env.tokenProgram
    case InvalidTokenAccount =>
      && (known ==> p.vault == w.positions[p.position].vault)
      && TokenIs(w.tokens, p.userToken, env.mint, p.owner) && TokenIs(w.tokens, p.vault, env.mint, p.position)
    case InvalidPriceFeed => p.feed == env.feed && p.feedAccount.owner == env.feedProgram
    case _ => true
  }

  /** Each refusal before the transfer names a demand that is not met; met demands admit the move. */
  lemma MoveRefusal(env: Env, w: World, p: Passed, amount: u64)
    ensures var r := CheckMove(env, w, p, amount);
            && (r.Err? ==> !Meets(r.error, env, w, p, amount))
            && (r.Ok? ==> forall e :: Meets(e, env, w, p, amount))
  {}

  /** And the errors from the transfer on, for a move that was admitted. */
  lemma TransferRefusal(env: Env, w: World, p: Passed, amount: u64)
    requires Sound(env, w) && UserSigned(env, Deposit(p, amount)) && CheckMove(env, w, p, amount).Ok?
    ensures p.userToken in w.tokens && p.vault in w.tokens
    ensures var (user, vault) := (w.tokens[p.userToken].amount, w.tokens[p.vault].amount);
            && (AfterDeposit(env, w, p, amount) == Err(ProtocolCpiFailed) <==>
                  user < amount || TWO_64 <= vault + amount)
            && (AfterWithdraw(env, w, p, amount) == Err(InvalidAmount) <==> vault < amount)
            && (AfterWithdraw(env, w, p, amount) == Err(ProtocolCpiFailed) <==>
                  amount <= vault && TWO_64 <= user + amount)
  {
    hide CheckMove, Sound, ReadFeedAnswer, CheckedPow10;
    MoveAdmitted(env, w, p, amount);
    Apart(env, w, p, Deposit(p, amount));
    PricingErrors(w.tokens[p.vault].amount, p.feedAccount.data);
    if w.tokens[p.vault].amount + amount < TWO_64 {
      PricingErrors(w.tokens[p.vault].amount + amount, p.feedAccount.data);
    }
    if amount <= w.tokens[p.vault].amount {
      PricingErrors(w.tokens[p.vault].amount - amount, p.feedAccount.data);
    }
  }

  lemma PricingErrors(shares: u64, feed: seq<u8>)
    ensures SharesToUsdcValue(shares, feed).Err? ==>
              SharesToUsdcValue(shares, feed).error in {InvalidPriceFeed, InvalidPriceAnswer, MathOverflow}
  {
    hide CheckedPow10, MulDivFloor;
  }

  /** What a move leaves recorded: the vault's balance, priced at the feed's answer. */
  lemma MoveRecords(env: Env, w: World, tx: Tx)
    requires tx.Deposit? || tx.Withdraw?
    requires Sound(env, w) && UserSigned(env, tx) && Apply(env, w, tx).Ok?
    ensures var (p, w') := (tx.passed, Apply(env, w, tx).value);
            && p.position in w'.positions && p.vault in w'.tokens && ReadFeedAnswer(p.feedAccount.data).Ok?
            && var (answer, decimals) := ReadFeedAnswer(p.feedAccount.data).value;
            && w'.positions[p.position].shares == w'.tokens[p.vault].amount
            && w'.positions[p.position].lastValue == Portion(w'.tokens[p.vault].amount, answer, Pow10(decimals))
            && w'.positions[p.position].owner == p.owner && w'.positions[p.position].vault == p.vault
  {
    hide ReadFeedAnswer, Pow10, Portion, AfterDeposit, AfterWithdraw, SharesToUsdcValue, CheckMove, Sound;
    var (p, w') := (tx.passed, Apply(env, w, tx).value);
    QuerySucceedsAfterMove(env, w, tx);
    ValueReads(env, w', p);
    if tx.Deposit? {
      DepositFacts(env, w, p, tx.amount);
    } else {
      WithdrawFacts(env, w, p, tx.amount);
    }
  }

  lemma ValueReads(env: Env, w: World, p: Passed)
    requires ValueNow(env, w, p).Ok?
    ensures p.vault in w.tokens && ReadFeedAnswer(p.feedAccount.data).Ok?
    ensures var (answer, decimals) := ReadFeedAnswer(p.feedAccount.data).value;
            ValueNow(env, w, p).value == Portion(w.tokens[p.vault].amount, answer, Pow10(decimals))
  {
    hide ReadFeedAnswer, Pow10, Portion, MulDivFloor, CheckedPow10;
    var (answer, decimals) := ReadFeedAnswer(p.feedAccount.data).value;
    ValueOutcome(w.tokens[p.vault].amount, p.feedAccount.data, answer, decimals);
  }
}
