/** The reference adapter: positions that count what their owner put in, one share per unit. */
module Template {
  import opened Wrappers
  import opened MachineInts
  import opened Bytes
  import opened Pda
  import opened Accounts
  import opened Interface

  datatype TemplateError =
    | InvalidAmount
    | InvalidMint
    | InvalidOwner
    | MathOverflow
    // Failures of the account loading and the instruction decoding in front of the program.
    | AccountNotEnoughKeys
    | AccountNotInitialized
    | AccountNotSigner
    | AccountInUse
    | ConstraintMut
    | ConstraintSeeds
    | NoUsableBump
    | UnknownInstruction

  datatype UserPosition = UserPosition(owner: Pubkey, depositedAmount: u64, shares: u64, lastValue: u64, bump: u8)

  datatype State = State(configs: map<Pubkey, AdapterConfig>, positions: map<Pubkey, UserPosition>)

  const EMPTY := State(map[], map[])

  /** The accounts of a move or a query: configuration, position, owner, mint. */
  datatype Passed = Passed(config: Meta, position: Meta, owner: Meta, mint: Meta)

  function ConfigSeeds(mint: Pubkey, version: u16): seq<u8> {
    Ascii("adapter_config") + mint + LeBytes16(version)
  }

  function PositionSeeds(config: Pubkey, owner: Pubkey): seq<u8> {
    Ascii("user_position") + config + owner
  }

  function ConfigAddress(d: Deployment, config: AdapterConfig): Option<Pubkey> {
    Create(d.derive, d.id, ConfigSeeds(config.supportedMint, config.version), config.bump)
  }

  function PositionAddress(d: Deployment, config: Pubkey, position: UserPosition): Option<Pubkey> {
    Create(d.derive, d.id, PositionSeeds(config, position.owner), position.bump)
  }

  /** Creating an account: only at the address found for its seeds, and only once. */
  function Allocate(d: Deployment, s: State, seeds: seq<u8>, key: Pubkey): Result<u8, TemplateError> {
    match Find(d.derive, d.id, seeds)
    case None => Err(NoUsableBump)
    case Some((found, bump)) =>
      if key != found then Err(ConstraintSeeds)
      else if key in s.configs || key in s.positions then Err(AccountInUse)
      else Ok(bump)
  }

  function CheckPassed(d: Deployment, s: State, p: Passed, writes: bool): Result<(), TemplateError> {
    if p.config.key !in s.configs || p.position.key !in s.positions then Err(AccountNotInitialized)
    else if !p.owner.isSigner then Err(AccountNotSigner)
    else if ConfigAddress(d, s.configs[p.config.key]) != Some(p.config.key) then Err(ConstraintSeeds)
    else if PositionAddress(d, p.config.key, s.positions[p.position.key]) != Some(p.position.key)
    then Err(ConstraintSeeds)
    else if writes && !p.position.isWritable then Err(ConstraintMut)
    else Ok(())
  }

  function CheckMintAndOwner(s: State, p: Passed): Result<(), TemplateError>
    requires p.config.key in s.configs && p.position.key in s.positions
  {
    if p.mint.key != s.configs[p.config.key].supportedMint then Err(InvalidMint)
    else if p.owner.key != s.positions[p.position.key].owner then Err(InvalidOwner)
    else Ok(())
  }

  /** A position after a request, with the return data a query sets. */
  function Answered(position: UserPosition, request: Request): Result<(UserPosition, Option<seq<u8>>), TemplateError> {
    match request
    case Deposit(amount) =>
      var deposited :- CheckedAdd64(position.depositedAmount, amount).OkOr(MathOverflow);
      var shares :- CheckedAdd64(position.shares, amount).OkOr(MathOverflow);
      Ok((position.(depositedAmount := deposited, shares := shares, lastValue := deposited), None))
    case Withdraw(amount) =>
      var deposited :- CheckedSub64(position.depositedAmount, amount).OkOr(MathOverflow);
      var shares :- CheckedSub64(position.shares, amount).OkOr(MathOverflow);
      Ok((position.(depositedAmount := deposited, shares := shares, lastValue := deposited), None))
    case CurrentValue => Ok((position, Some(LeBytes64(position.lastValue))))
  }

  function Handle(d: Deployment, s: State, p: Passed, request: Request)
    : Result<(State, Option<seq<u8>>), TemplateError>
  {
    var _ :- CheckPassed(d, s, p, !request.CurrentValue?);
    if !request.CurrentValue? && request.amount == 0 then Err(InvalidAmount) else
      var _ :- CheckMintAndOwner(s, p);
      var answered :- Answered(s.positions[p.position.key], request);
      Ok((s.(positions := s.positions[p.position.key := answered.0]), answered.1))
  }

  /** The program's entry point: raw data chooses the handler, the first four accounts are its own. */
  function Process(d: Deployment, s: State, cpi: Cpi): Result<(State, Option<seq<u8>>), TemplateError> {
    var request :- Decode(cpi.data).OkOr(UnknownInstruction);
    if |cpi.accounts| < 4 then Err(AccountNotEnoughKeys)
    else Handle(d, s, Passed(cpi.accounts[0], cpi.accounts[1], cpi.accounts[2], cpi.accounts[3]), request)
  }

  function AfterInitializeAdapter(d: Deployment, s: State, authority: Pubkey, key: Pubkey, mint: Pubkey,
                                  protocol: Pubkey, version: u16): Result<State, TemplateError> {
    var bump :- Allocate(d, s, ConfigSeeds(mint, version), key);
    if mint == DEFAULT_KEY then Err(InvalidMint)
    else Ok(s.(configs := s.configs[key := AdapterConfig(authority, mint, protocol, version, bump)]))
  }

  function AfterInitializePosition(d: Deployment, s: State, config: Pubkey, key: Pubkey, owner: Pubkey)
    : Result<State, TemplateError>
  {
    if config !in s.configs then Err(AccountNotInitialized) else
      var bump :- Allocate(d, s, PositionSeeds(config, owner), key);
      if ConfigAddress(d, s.configs[config]) != Some(config) then Err(ConstraintSeeds)
      else Ok(s.(positions := s.positions[key := UserPosition(owner, 0, 0, 0, bump)]))
  }

  /** A position lies at the address found for one configuration and its owner. */
  predicate Homed(d: Deployment, s: State, k: Pubkey, config: Pubkey) {
    && k in s.positions && config in s.configs
    && Find(d.derive, d.id, PositionSeeds(config, s.positions[k].owner)) == Some((k, s.positions[k].bump))
  }

  /** Configurations and positions are at their canonical addresses, and a position's counters agree. */
  ghost predicate Sound(d: Deployment, s: State) {
    && (forall k | k in s.configs ::
          Find(d.derive, d.id, ConfigSeeds(s.configs[k].supportedMint, s.configs[k].version)) ==
          Some((k, s.configs[k].bump)))
    && (forall k | k in s.positions ::
          s.positions[k].depositedAmount == s.positions[k].shares == s.positions[k].lastValue)
    && (forall k | k in s.positions :: exists config :: Homed(d, s, k, config))
  }

  /** A step that keeps configurations and what addresses are derived from keeps every position at home. */
  lemma HomesStay(d: Deployment, s: State, s': State)
    requires forall k | k in s.positions :: exists config :: Homed(d, s, k, config)
    requires forall c | c in s.configs :: c in s'.configs
    requires forall k | k in s'.positions ::
               k in s.positions && s'.positions[k].owner == s.positions[k].owner
               && s'.positions[k].bump == s.positions[k].bump
    ensures forall k | k in s'.positions :: exists config :: Homed(d, s', k, config)
  {
    forall k | k in s'.positions ensures exists config :: Homed(d, s', k, config) {
      var config :| Homed(d, s, k, config);
      assert Homed(d, s', k, config);
    }
  }

  /** Opening a position puts it at home and leaves the others there. */
  lemma HomeOpened(d: Deployment, s: State, config: Pubkey, key: Pubkey, owner: Pubkey)
    requires forall k | k in s.positions :: exists c :: Homed(d, s, k, c)
    requires AfterInitializePosition(d, s, config, key, owner).Ok?
    ensures var s' := AfterInitializePosition(d, s, config, key, owner).value;
            forall k | k in s'.positions :: exists c :: Homed(d, s', k, c)
  {
    var s' := AfterInitializePosition(d, s, config, key, owner).value;
    assert Homed(d, s', key, config);
    forall k | k in s.positions ensures exists c :: Homed(d, s', k, c) {
      var c :| Homed(d, s, k, c);
      assert Homed(d, s', k, c);
    }
  }

  class Program {
    const deployment: Deployment
    var configs: map<Pubkey, AdapterConfig>
    var positions: map<Pubkey, UserPosition>

    ghost predicate Valid()
      reads this
    {
      Sound(deployment, Now())
    }

    function Now(): State
      reads this
    {
      State(configs, positions)
    }

    constructor (deployment: Deployment)
      ensures Valid() && this.deployment == deployment && Now() == EMPTY
    {
      this.deployment := deployment;
      configs, positions := map[], map[];
    }

    method InitializeAdapter(authority: Pubkey, key: Pubkey, mint: Pubkey, protocol: Pubkey, version: u16)
      returns (r: Result<(), TemplateError>)
      requires Valid()
      modifies this
      ensures Valid()
      ensures r == (var s :- AfterInitializeAdapter(deployment, old(Now()), authority, key, mint, protocol, version);
                    Ok(()))
      ensures r.Ok? ==>
                Ok(Now()) == AfterInitializeAdapter(deployment, old(Now()), authority, key, mint, protocol, version)
      ensures r.Err? ==> unchanged(this)
    {
      hide Find, ConfigSeeds, Homed;
      var bump :- Allocate(deployment, Now(), ConfigSeeds(mint, version), key);
      if mint == DEFAULT_KEY {
        return Err(InvalidMint);
      }
      ghost var before := Now();
      configs := configs[key := AdapterConfig(authority, mint, protocol, version, bump)];
      HomesStay(deployment, before, Now());
      return Ok(());
    }

    method InitializePosition(config: Pubkey, key: Pubkey, owner: Pubkey) returns (r: Result<(), TemplateError>)
      requires Valid()
      modifies this
      ensures Valid()
      ensures r == (var s :- AfterInitializePosition(deployment, old(Now()), config, key, owner); Ok(()))
      ensures r.Ok? ==> Ok(Now()) == AfterInitializePosition(deployment, old(Now()), config, key, owner)
      ensures r.Err? ==> unchanged(this)
    {
      hide Find, Create, PositionSeeds, ConfigSeeds, Homed;
      if config !in configs {
        return Err(AccountNotInitialized);
      }
      var bump :- Allocate(deployment, Now(), PositionSeeds(config, owner), key);
      if ConfigAddress(deployment, configs[config]) != Some(config) {
        return Err(ConstraintSeeds);
      }
      HomeOpened(deployment, Now(), config, key, owner);
      positions := positions[key := UserPosition(owner, 0, 0, 0, bump)];
      return Ok(());
    }

    method Deposit(p: Passed, amount: u64) returns (r: Result<(), TemplateError>)
      modifies this`positions
      ensures old(Valid()) ==> Valid()
      ensures r == (var done :- Handle(deployment, old(Now()), p, Request.Deposit(amount)); Ok(()))
      ensures r.Ok? ==> Ok((Now(), None)) == Handle(deployment, old(Now()), p, Request.Deposit(amount))
      ensures r.Err? ==> unchanged(this)
    {
      hide Find, CheckPassed, Homed;
      var _ :- CheckPassed(deployment, Now(), p, true);
      PassedExists(deployment, Now(), p, true);
      if amount == 0 {
        return Err(InvalidAmount);
      }
      var _ :- CheckMintAndOwner(Now(), p);
      var position := positions[p.position.key];
      var deposited :- CheckedAdd64(position.depositedAmount, amount).OkOr(MathOverflow);
      position := position.(depositedAmount := deposited);
      var shares :- CheckedAdd64(position.shares, amount).OkOr(MathOverflow);
      position := position.(shares := shares);
      position := position.(lastValue := position.depositedAmount);
      ghost var before := Now();
      positions := positions[p.position.key := position];
      if Sound(deployment, before) {
        HomesStay(deployment, before, Now());
      }
      return Ok(());
    }

    method Withdraw(p: Passed, amount: u64) returns (r: Result<(), TemplateError>)
      modifies this`positions
      ensures old(Valid()) ==> Valid()
      ensures r == (var done :- Handle(deployment, old(Now()), p, Request.Withdraw(amount)); Ok(()))
      ensures r.Ok? ==> Ok((Now(), None)) == Handle(deployment, old(Now()), p, Request.Withdraw(amount))
      ensures r.Err? ==> unchanged(this)
    {
      hide Find, CheckPassed, Homed;
      var _ :- CheckPassed(deployment, Now(), p, true);
      PassedExists(deployment, Now(), p, true);
      if amount == 0 {
        return Err(InvalidAmount);
      }
      var _ :- CheckMintAndOwner(Now(), p);
      var position := positions[p.position.key];
      var deposited :- CheckedSub64(position.depositedAmount, amount).OkOr(MathOverflow);
      position := position.(depositedAmount := deposited);
      var shares :- CheckedSub64(position.shares, amount).OkOr(MathOverflow);
      position := position.(shares := shares);
      position := position.(lastValue := position.depositedAmount);
      ghost var before := Now();
      positions := positions[p.position.key := position];
      if Sound(deployment, before) {
        HomesStay(deployment, before, Now());
      }
      return Ok(());
    }

    /** The return data that answers a query. */
    method CurrentValue(p: Passed) returns (r: Result<seq<u8>, TemplateError>)
      ensures r == (var done :- Handle(deployment, Now(), p, Request.CurrentValue); Ok(done.1.value))
      ensures r.Ok? ==> Handle(deployment, Now(), p, Request.CurrentValue) == Ok((Now(), Some(r.value)))
    {
      hide Find, CheckPassed, LeBytes64;
      var _ :- CheckPassed(deployment, Now(), p, false);
      PassedExists(deployment, Now(), p, false);
      var _ :- CheckMintAndOwner(Now(), p);
      assert positions == positions[p.position.key := positions[p.position.key]];
      return Ok(LeBytes64(positions[p.position.key].lastValue));
    }
  }

  lemma PassedExists(d: Deployment, s: State, p: Passed, writes: bool)
    requires CheckPassed(d, s, p, writes).Ok?
    ensures p.config.key in s.configs && p.position.key in s.positions && p.owner.isSigner
  {}
}
