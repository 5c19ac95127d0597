/** Maple custody: vaults owned by position addresses, and the SPL transfers that move tokens. */
module MapleCustody {
  import opened Wrappers
  import opened MachineInts
  import opened Bytes
  import opened Accounts
  import opened FeedRing

  /** An SPL token account: its mint, who may spend from it, and its balance. */
  datatype Token = Token(mint: Pubkey, holder: Pubkey, amount: u64)

  datatype Position = Position(owner: Pubkey, vault: Pubkey, deposited: u64, shares: u64, lastValue: u64)

  datatype World = World(tokens: map<Pubkey, Token>, positions: map<Pubkey, Position>)

  /** Compiled-in addresses, and the position address of each owner under the adapter's configuration. */
  datatype Env = Env(
    mint: Pubkey,
    tokenProgram: Pubkey,
    feed: Pubkey,
    feedProgram: Pubkey,
    positionOf: Pubkey -> Pubkey
  )

  /** The accounts a caller passes; `userToken` is debited by a deposit and credited by a withdrawal. */
  datatype Passed = Passed(
    position: Pubkey,
    owner: Pubkey,
    mint: Pubkey,
    tokenProgram: Pubkey,
    userToken: Pubkey,
    vault: Pubkey,
    feed: Pubkey,
    feedAccount: Account
  )

  /** Adapter instructions, and what anyone may do with the token program, such as opening an account for another. */
  datatype Tx =
    | Open(owner: Pubkey, vault: Pubkey)
    | Deposit(passed: Passed, amount: u64)
    | Withdraw(passed: Passed, amount: u64)
    | Send(from: Pubkey, to: Pubkey, sent: u64, sender: Pubkey)
    | NewToken(key: Pubkey, mint: Pubkey, holder: Pubkey, payer: Pubkey)
    | Assign(account: Pubkey, newHolder: Pubkey, sender: Pubkey)
  {
    function Signer(): Pubkey {
      match this
      case Open(owner, _) => owner
      case Deposit(passed, _) => passed.owner
      case Withdraw(passed, _) => passed.owner
      case Send(_, _, _, sender) => sender
      case NewToken(_, _, _, payer) => payer
      case Assign(_, _, sender) => sender
    }
  }

  predicate TokenIs(tokens: map<Pubkey, Token>, key: Pubkey, mint: Pubkey, holder: Pubkey) {
    key in tokens && tokens[key].mint == mint && tokens[key].holder == holder
  }

  /** Balances after a transfer between two different accounts. */
  function Moved(tokens: map<Pubkey, Token>, from: Pubkey, to: Pubkey, amount: u64): map<Pubkey, Token>
    requires from in tokens && to in tokens && amount <= tokens[from].amount && tokens[to].amount + amount < TWO_64
  {
    tokens[from := tokens[from].(amount := tokens[from].amount - amount)]
          [to := tokens[to].(amount := tokens[to].amount + amount)]
  }

  /** An SPL transfer; moving a balance onto itself succeeds and changes nothing. */
  function Transfer(tokens: map<Pubkey, Token>, from: Pubkey, to: Pubkey, amount: u64): Option<map<Pubkey, Token>> {
    if from !in tokens || to !in tokens || tokens[from].mint != tokens[to].mint then None
    else if tokens[from].amount < amount then None
    else if from == to then Some(tokens)
    else
      var _ :- CheckedAdd64(tokens[to].amount, amount);
      Some(Moved(tokens, from, to, amount))
  }

  function CheckIdentity(env: Env, w: World, p: Passed): Result<(), MapleError> {
    if p.position !in w.positions then Err(AccountNotInitialized)
    else if p.mint != env.mint then Err(InvalidMint)
    else if p.owner != w.positions[p.position].owner then Err(InvalidOwner)
    else if p.tokenProgram != env.tokenProgram then Err(InvalidProtocolProgram)
    else if p.vault != w.positions[p.position].vault then Err(InvalidTokenAccount)
    else Ok(())
  }

  function CheckFeed(env: Env, p: Passed): Result<(), MapleError> {
    if p.feed != env.feed || p.feedAccount.owner != env.feedProgram then Err(InvalidPriceFeed) else Ok(())
  }

  function CheckMove(env: Env, w: World, p: Passed, amount: u64): Result<(), MapleError> {
    if p.position in w.positions && amount == 0 then Err(InvalidAmount) else
      var _ :- CheckIdentity(env, w, p);
      if !TokenIs(w.tokens, p.userToken, env.mint, p.owner) then Err(InvalidTokenAccount)
      else if !TokenIs(w.tokens, p.vault, env.mint, p.position) then Err(InvalidTokenAccount)
      else CheckFeed(env, p)
  }

  function AfterDeposit(env: Env, w: World, p: Passed, amount: u64): Result<World, MapleError> {
    var _ :- CheckMove(env, w, p, amount);
    var tokens :- Transfer(w.tokens, p.userToken, p.vault, amount).OkOr(ProtocolCpiFailed);
    var position := w.positions[p.position];
    var shares := tokens[p.vault].amount;
    var value :- SharesToUsdcValue(shares, p.feedAccount.data);
    var deposited :- CheckedAdd64(position.deposited, amount).OkOr(MathOverflow);
    var moved := position.(deposited := deposited, shares := shares, lastValue := value);
    Ok(World(tokens, w.positions[p.position := moved]))
  }

  function AfterWithdraw(env: Env, w: World, p: Passed, amount: u64): Result<World, MapleError> {
    var _ :- CheckMove(env, w, p, amount);
    if w.tokens[p.vault].amount < amount then Err(InvalidAmount) else
      var tokens :- Transfer(w.tokens, p.vault, p.userToken, amount).OkOr(ProtocolCpiFailed);
      var position := w.positions[p.position];
      var shares := tokens[p.vault].amount;
      var value :- SharesToUsdcValue(shares, p.feedAccount.data);
      var deposited := SaturatingSub64(position.deposited, amount);
      var moved := position.(deposited := deposited, shares := shares, lastValue := value);
      Ok(World(tokens, w.positions[p.position := moved]))
  }

  function AfterOpen(env: Env, w: World, owner: Pubkey, vault: Pubkey): Result<World, MapleError> {
    var key := env.positionOf(owner);
    if key in w.positions then Err(AccountInUse)
    else if vault == DEFAULT_KEY then Err(InvalidTokenAccount)
    else Ok(w.(positions := w.positions[key := Position(owner, vault, 0, 0, 0)]))
  }

  function Apply(env: Env, w: World, tx: Tx): Result<World, MapleError> {
    match tx
    case Open(owner, vault) => AfterOpen(env, w, owner, vault)
    case Deposit(p, amount) => AfterDeposit(env, w, p, amount)
    case Withdraw(p, amount) => AfterWithdraw(env, w, p, amount)
    case Send(from, to, sent, sender) =>
      if from in w.tokens && w.tokens[from].holder == sender then
        var tokens :- Transfer(w.tokens, from, to, sent).OkOr(ProtocolCpiFailed);
        Ok(w.(tokens := tokens))
      else Err(ProtocolCpiFailed)
    case NewToken(key, mint, holder, _) =>
      if key in w.tokens then Err(AccountInUse)
      else Ok(w.(tokens := w.tokens[key := Token(mint, holder, 0)]))
    case Assign(key, newHolder, sender) =>
      if key in w.tokens && w.tokens[key].holder == sender
      then Ok(w.(tokens := w.tokens[key := w.tokens[key].(holder := newHolder)]))
      else Err(ProtocolCpiFailed)
  }

  /** A failed transaction leaves no trace. */
  function Step(env: Env, w: World, tx: Tx): World {
    match Apply(env, w, tx)
    case Ok(w') => w'
    case Err(_) => w
  }

  function Run(env: Env, w: World, txs: seq<Tx>): World {
    if txs == [] then w else Step(env, Run(env, w, txs[..|txs| - 1]), txs[|txs| - 1])
  }

  /** The owner's view: the value of the vault the position names, once the same checks pass. */
  function ValueNow(env: Env, w: World, p: Passed): Result<u64, MapleError> {
    var _ :- CheckIdentity(env, w, p);
    if !TokenIs(w.tokens, p.vault, env.mint, p.position) then Err(InvalidTokenAccount) else
      var _ :- CheckFeed(env, p);
      SharesToUsdcValue(w.tokens[p.vault].amount, p.feedAccount.data)
  }

  /** Position addresses have no private key, so no transaction is signed by one. */
  ghost predicate UserSigned(env: Env, tx: Tx) {
    forall owner: Pubkey :: env.positionOf(owner) != tx.Signer()
  }

  ghost predicate Sound(env: Env, w: World) {
    forall k | k in w.positions ::
      && env.positionOf(w.positions[k].owner) == k
      && (0 < w.positions[k].deposited ==>
            && TokenIs(w.tokens, w.positions[k].vault, env.mint, k)
            && w.positions[k].deposited <= w.tokens[w.positions[k].vault].amount)
  }

  /** The deposits recorded against a token account by the position that holds it as its vault. */
  function Recorded(w: World, v: Pubkey): nat {
    if v in w.tokens && w.tokens[v].holder in w.positions && w.positions[w.tokens[v].holder].vault == v
    then w.positions[w.tokens[v].holder].deposited else 0
  }

  /** What a transaction credits to a token account other than as a deposit into a vault. */
  function Gift(env: Env, w: World, tx: Tx, v: Pubkey): nat {
    if Apply(env, w, tx).Err? then 0 else
      match tx
      case Send(from, to, sent, _) => if to == v && from != v then sent else 0
      case Withdraw(p, amount) => if p.userToken == v then amount else 0
      case _ => 0
  }

  function Balance(w: World, v: Pubkey): nat {
    if v in w.tokens then w.tokens[v].amount else 0
  }

  /** What the account held at the start of a run, and everything given to it since. */
  function Given(env: Env, w: World, txs: seq<Tx>, v: Pubkey): nat {
    if txs == [] then Balance(w, v) else
      var before := txs[..|txs| - 1];
      Given(env, w, before, v) + Gift(env, Run(env, w, before), txs[|txs| - 1], v)
  }

  lemma MoveFacts(env: Env, w: World, p: Passed, amount: u64)
    requires CheckMove(env, w, p, amount).Ok? && Sound(env, w)
    ensures p.position in w.positions && 0 < amount && p.owner == w.positions[p.position].owner
    ensures p.vault == w.positions[p.position].vault && env.positionOf(p.owner) == p.position
    ensures TokenIs(w.tokens, p.userToken, env.mint, p.owner) && TokenIs(w.tokens, p.vault, env.mint, p.position)
  {}

  lemma DepositFacts(env: Env, w: World, p: Passed, amount: u64)
    requires AfterDeposit(env, w, p, amount).Ok? && Sound(env, w) && UserSigned(env, Deposit(p, amount))
    ensures var w' := AfterDeposit(env, w, p, amount).value;
            && p.position in w.positions && p.userToken != p.vault
            && TokenIs(w.tokens, p.userToken, env.mint, p.owner) && TokenIs(w.tokens, p.vault, env.mint, p.position)
            && env.positionOf(p.owner) == p.position && w.positions[p.position].owner == p.owner
            && w.positions[p.position].vault == p.vault
            && amount <= w.tokens[p.userToken].amount && w.tokens[p.vault].amount + amount < TWO_64
            && w'.tokens == Moved(w.tokens, p.userToken, p.vault, amount)
            && w'.positions.Keys == w.positions.Keys
            && w'.positions == w.positions[p.position := w'.positions[p.position]]
            && w'.positions[p.position].owner == p.owner && w'.positions[p.position].vault == p.vault
            && w'.positions[p.position].deposited == w.positions[p.position].deposited + amount
            && w'.positions[p.position].shares == w'.tokens[p.vault].amount
  {
    hide SharesToUsdcValue;
    MoveFacts(env, w, p, amount);
  }

  lemma WithdrawFacts(env: Env, w: World, p: Passed, amount: u64)
    requires AfterWithdraw(env, w, p, amount).Ok? && Sound(env, w) && UserSigned(env, Withdraw(p, amount))
    ensures var w' := AfterWithdraw(env, w, p, amount).value;
            && p.position in w.positions && p.userToken != p.vault
            && TokenIs(w.tokens, p.userToken, env.mint, p.owner) && TokenIs(w.tokens, p.vault, env.mint, p.position)
            && env.positionOf(p.owner) == p.position && w.positions[p.position].owner == p.owner
            && w.positions[p.position].vault == p.vault
            && amount <= w.tokens[p.vault].amount && w.tokens[p.userToken].amount + amount < TWO_64
            && w'.tokens == Moved(w.tokens, p.vault, p.userToken, amount)
            && w'.positions.Keys == w.positions.Keys
            && w'.positions == w.positions[p.position := w'.positions[p.position]]
            && w'.positions[p.position].owner == p.owner && w'.positions[p.position].vault == p.vault
            && w'.positions[p.position].deposited == SaturatingSub64(w.positions[p.position].deposited, amount)
            && w'.positions[p.position].shares == w'.tokens[p.vault].amount
  {
    hide SharesToUsdcValue;
    MoveFacts(env, w, p, amount);
  }

  lemma DepositKeeps(env: Env, w: World, p: Passed, amount: u64, v: Pubkey)
    requires Sound(env, w) && UserSigned(env, Deposit(p, amount)) && AfterDeposit(env, w, p, amount).Ok?
    ensures var w' := AfterDeposit(env, w, p, amount).value;
            Sound(env, w') && Balance(w', v) + Recorded(w, v) <= Balance(w, v) + Recorded(w', v)
  {
    hide AfterDeposit;
    DepositFacts(env, w, p, amount);
  }

  lemma WithdrawKeeps(env: Env, w: World, p: Passed, amount: u64, v: Pubkey, given: nat)
    requires Sound(env, w) && UserSigned(env, Withdraw(p, amount)) && AfterWithdraw(env, w, p, amount).Ok?
    ensures var w' := AfterWithdraw(env, w, p, amount).value;
            && Sound(env, w')
            && (Balance(w, v) <= Recorded(w, v) + given ==>
                  Balance(w', v) <= Recorded(w', v) + given + if p.userToken == v then amount else 0)
  {
    hide AfterWithdraw;
    WithdrawFacts(env, w, p, amount);
  }

  lemma SendKeeps(env: Env, w: World, tx: Tx, v: Pubkey)
    requires tx.Send? && Sound(env, w) && UserSigned(env, tx) && Apply(env, w, tx).Ok?
    ensures var w' := Apply(env, w, tx).value;
            Sound(env, w') && Balance(w', v) + Recorded(w, v) <= Balance(w, v) + Recorded(w', v) + Gift(env, w, tx, v)
  {}

  lemma StepSound(env: Env, w: World, tx: Tx)
    requires Sound(env, w) && UserSigned(env, tx)
    ensures Sound(env, Step(env, w, tx))
  {
    hide AfterDeposit, AfterWithdraw, Transfer, Balance, Recorded, Gift;
    if Apply(env, w, tx).Ok? {
      match tx
      case Deposit(p, amount) => DepositKeeps(env, w, p, amount, p.vault);
      case Withdraw(p, amount) => WithdrawKeeps(env, w, p, amount, p.vault, 0);
      case Send(_, _, _, _) => SendKeeps(env, w, tx, tx.to);
      case _ =>
    }
  }

  lemma StepBounded(env: Env, w: World, tx: Tx, v: Pubkey, given: nat)
    requires Sound(env, w) && UserSigned(env, tx) && Balance(w, v) <= Recorded(w, v) + given
    ensures var w' := Step(env, w, tx);
            Balance(w', v) <= Recorded(w', v) + given + Gift(env, w, tx, v)
  {
    hide AfterDeposit, AfterWithdraw, Transfer;
    if Apply(env, w, tx).Ok? {
      match tx
      case Deposit(p, amount) => DepositKeeps(env, w, p, amount, v);
      case Withdraw(p, amount) => WithdrawKeeps(env, w, p, amount, v, given);
      case Send(_, _, _, _) => SendKeeps(env, w, tx, v);
      case _ =>
    }
  }

  /** Over every run from a world without positions, a vault holds what was deposited, plus only gifts. */
  lemma {:induction false} CustodyHolds(env: Env, w: World, txs: seq<Tx>, v: Pubkey)
    requires w.positions == map[] && forall tx | tx in txs :: UserSigned(env, tx)
    ensures Sound(env, Run(env, w, txs))
    ensures Balance(Run(env, w, txs), v) <= Recorded(Run(env, w, txs), v) + Given(env, w, txs, v)
  {
    if txs == [] {
    } else {
      var before := txs[..|txs| - 1];
      CustodyHolds(env, w, before, v);
      StepSound(env, Run(env, w, before), txs[|txs| - 1]);
      StepBounded(env, Run(env, w, before), txs[|txs| - 1], v, Given(env, w, before, v));
    }
  }

  /**
   So the saturating subtraction never hides a loss: what a position has recorded is in its vault, and
   it is the whole vault when the account started empty and was never sent tokens directly.
   */
  lemma DepositsAreInTheVault(env: Env, w: World, txs: seq<Tx>, k: Pubkey)
    requires w.positions == map[] && forall tx | tx in txs :: UserSigned(env, tx)
    requires k in Run(env, w, txs).positions
    ensures var now := Run(env, w, txs);
            var (deposited, v) := (now.positions[k].deposited, now.positions[k].vault);
            && deposited <= Balance(now, v)
            && (TokenIs(now.tokens, v, env.mint, k) ==> Balance(now, v) <= deposited + Given(env, w, txs, v))
            && (TokenIs(now.tokens, v, env.mint, k) && Given(env, w, txs, v) == 0 ==> deposited == Balance(now, v))
  {
    CustodyHolds(env, w, txs, Run(env, w, txs).positions[k].vault);
  }

  /** Where nothing but deposits came in, no withdrawal can take out more than was recorded. */
  lemma WithdrawalNeverSaturates(env: Env, w: World, txs: seq<Tx>, p: Passed, amount: u64)
    requires w.positions == map[] && forall tx | tx in txs :: UserSigned(env, tx)
    requires AfterWithdraw(env, Run(env, w, txs), p, amount).Ok? && Given(env, w, txs, p.vault) == 0
    ensures p.position in Run(env, w, txs).positions
    ensures amount <= Run(env, w, txs).positions[p.position].deposited
  {
    hide SharesToUsdcValue, Run, Given, Sound;
    CustodyHolds(env, w, txs, p.vault);
    MoveFacts(env, Run(env, w, txs), p, amount);
    DepositsAreInTheVault(env, w, txs, p.position);
  }

  /** A position is as it was, and a token account it holds too, except for what was given to it. */
  ghost predicate LeftAlone(w: World, w': World, k: Pubkey, v: Pubkey, given: nat) {
    && k in w.positions && k in w'.positions && w'.positions[k] == w.positions[k]
    && (v in w.tokens && w.tokens[v].holder == k ==>
          && v in w'.tokens && w'.tokens[v].holder == k && w'.tokens[v].mint == w.tokens[v].mint
          && w'.tokens[v].amount == w.tokens[v].amount + given)
  }

  lemma DepositLeavesOthersAlone(env: Env, w: World, p: Passed, amount: u64, k: Pubkey, v: Pubkey)
    requires Sound(env, w) && UserSigned(env, Deposit(p, amount)) && AfterDeposit(env, w, p, amount).Ok?
    requires k in w.positions && p.owner != w.positions[k].owner
    ensures LeftAlone(w, AfterDeposit(env, w, p, amount).value, k, v, 0)
  {
    hide AfterDeposit, Transfer;
    DepositFacts(env, w, p, amount);
    assert env.positionOf(w.positions[k].owner) == k != p.owner;
  }

  lemma WithdrawLeavesOthersAlone(env: Env, w: World, p: Passed, amount: u64, k: Pubkey, v: Pubkey)
    requires Sound(env, w) && UserSigned(env, Withdraw(p, amount)) && AfterWithdraw(env, w, p, amount).Ok?
    requires k in w.positions && p.owner != w.positions[k].owner
    ensures LeftAlone(w, AfterWithdraw(env, w, p, amount).value, k, v, 0)
    ensures p.userToken == v ==> v in w.tokens && w.tokens[v].holder != k
  {
    hide AfterWithdraw, Transfer;
    WithdrawFacts(env, w, p, amount);
    assert env.positionOf(w.positions[k].owner) == k != p.owner;
  }

  lemma SendLeavesOthersAlone(env: Env, w: World, tx: Tx, k: Pubkey, v: Pubkey)
    requires tx.Send? && Sound(env, w) && UserSigned(env, tx) && Apply(env, w, tx).Ok? && k in w.positions
    ensures LeftAlone(w, Apply(env, w, tx).value, k, v, Gift(env, w, tx, v))
  {
    assert env.positionOf(w.positions[k].owner) == k;
  }

  /** A step signed by anyone else leaves a position alone, and its vault too unless tokens are sent to it. */
  lemma StepLeavesOthersAlone(env: Env, w: World, tx: Tx, k: Pubkey, v: Pubkey)
    requires Sound(env, w) && UserSigned(env, tx)
    requires k in w.positions && tx.Signer() != w.positions[k].owner
    ensures LeftAlone(w, Step(env, w, tx), k, v, Gift(env, w, tx, v))
    ensures !tx.Send? && v in w.tokens && w.tokens[v].holder == k ==> Gift(env, w, tx, v) == 0
  {
    hide AfterDeposit, AfterWithdraw, Transfer;
    assert env.positionOf(w.positions[k].owner) == k;
    if Apply(env, w, tx).Ok? {
      match tx
      case Deposit(p, amount) => DepositLeavesOthersAlone(env, w, p, amount, k, v);
      case Withdraw(p, amount) => WithdrawLeavesOthersAlone(env, w, p, amount, k, v);
      case Send(_, _, _, _) => SendLeavesOthersAlone(env, w, tx, k, v);
      case _ =>
    }
  }

  /** Over a whole run that its owner does not sign, a position stays and its vault never shrinks. */
  lemma {:induction false} RunLeavesOthersAlone(env: Env, w: World, txs: seq<Tx>, k: Pubkey, v: Pubkey)
    requires Sound(env, w) && forall tx | tx in txs :: UserSigned(env, tx)
    requires k in w.positions && forall tx | tx in txs :: tx.Signer() != w.positions[k].owner
    ensures var now := Run(env, w, txs);
            && Sound(env, now) && k in now.positions && now.positions[k] == w.positions[k]
            && (v in w.tokens && w.tokens[v].holder == k ==>
                  v in now.tokens && now.tokens[v].holder == k && now.tokens[v].amount == Given(env, w, txs, v))
  {
    if txs == [] {
    } else {
      var before := txs[..|txs| - 1];
      RunLeavesOthersAlone(env, w, before, k, v);
      StepSound(env, Run(env, w, before), txs[|txs| - 1]);
      StepLeavesOthersAlone(env, Run(env, w, before), txs[|txs| - 1], k, v);
    }
  }

  /** All tokens of one mint, over every account. */
  ghost function Total(tokens: map<Pubkey, Token>, mint: Pubkey): nat
    decreases |tokens|
  {
    if tokens == map[] then 0 else
      var k :| k in tokens;
      Counted(tokens, mint, k) + Total(tokens - {k}, mint)
  }

  function Counted(tokens: map<Pubkey, Token>, mint: Pubkey, k: Pubkey): nat
    requires k in tokens
  {
    if tokens[k].mint == mint then tokens[k].amount else 0
  }

  lemma {:induction false} TotalWithout(tokens: map<Pubkey, Token>, mint: Pubkey, k: Pubkey)
    requires k in tokens
    ensures Total(tokens, mint) == Counted(tokens, mint, k) + Total(tokens - {k}, mint)
    decreases |tokens|
  {
    var chosen :| && chosen in tokens
                  && Total(tokens, mint) == Counted(tokens, mint, chosen) + Total(tokens - {chosen}, mint);
    if chosen == k {
    } else {
      var (a, b) := (tokens - {chosen}, tokens - {k});
      assert a[k] == tokens[k] && b[chosen] == tokens[chosen];
      TotalWithout(a, mint, k);
      TotalWithout(b, mint, chosen);
      assert a - {k} == b - {chosen};
      assert Total(a, mint) == Counted(tokens, mint, k) + Total(a - {k}, mint);
      assert Total(b, mint) == Counted(tokens, mint, chosen) + Total(b - {chosen}, mint);
    }
  }

  lemma TotalUpdated(tokens: map<Pubkey, Token>, mint: Pubkey, k: Pubkey, token: Token)
    ensures Total(tokens[k := token], mint) + (if k in tokens then Counted(tokens, mint, k) else 0) ==
            Total(tokens, mint) + if token.mint == mint then token.amount else 0
  {
    var updated := tokens[k := token];
    TotalWithout(updated, mint, k);
    if k in tokens {
      TotalWithout(tokens, mint, k);
      assert updated - {k} == tokens - {k};
    } else {
      assert updated - {k} == tokens;
    }
  }

  lemma TransferConserves(tokens: map<Pubkey, Token>, from: Pubkey, to: Pubkey, amount: u64, mint: Pubkey)
    requires Transfer(tokens, from, to, amount).Some?
    ensures Total(Transfer(tokens, from, to, amount).value, mint) == Total(tokens, mint)
  {
    if from != to {
      var debited := tokens[from := tokens[from].(amount := tokens[from].amount - amount)];
      TotalUpdated(tokens, mint, from, debited[from]);
      TotalUpdated(debited, mint, to, tokens[to].(amount := tokens[to].amount + amount));
    }
  }

  /** No run creates or destroys tokens: users and vaults together hold what they held. */
  lemma {:induction false} TokensConserved(env: Env, w: World, txs: seq<Tx>, mint: Pubkey)
    ensures Total(Run(env, w, txs).tokens, mint) == Total(w.tokens, mint)
  {
    hide SharesToUsdcValue, Transfer;
    if txs == [] {
    } else {
      var before := Run(env, w, txs[..|txs| - 1]);
      TokensConserved(env, w, txs[..|txs| - 1], mint);
      if Apply(env, before, txs[|txs| - 1]).Ok? {
        match txs[|txs| - 1]
        case Open(_, _) =>
        case Deposit(p, amount) => TransferConserves(before.tokens, p.userToken, p.vault, amount, mint);
        case Withdraw(p, amount) => TransferConserves(before.tokens, p.vault, p.userToken, amount, mint);
        case Send(from, to, sent, _) => TransferConserves(before.tokens, from, to, sent, mint);
        case NewToken(key, m, holder, _) => TotalUpdated(before.tokens, mint, key, Token(m, holder, 0));
        case Assign(key, newHolder, _) =>
          TotalUpdated(before.tokens, mint, key, before.tokens[key].(holder := newHolder));
      }
    }
  }
}
