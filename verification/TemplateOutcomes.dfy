/** What the reference adapter stores when accounts are created, and what it refuses with which error. */
module TemplateOutcomes {
  import opened Wrappers
  import opened MachineInts
  import opened Bytes
  import opened Pda
  import opened Interface
  import opened Template

  /** A new configuration holds what it was created with, at its found address; nothing else changes. */
  lemma AdapterStores(d: Deployment, s: State, authority: Pubkey, key: Pubkey, mint: Pubkey, protocol: Pubkey,
                      version: u16)
    requires AfterInitializeAdapter(d, s, authority, key, mint, protocol, version).Ok?
    ensures var s' := AfterInitializeAdapter(d, s, authority, key, mint, protocol, version).value;
            && s'.positions == s.positions && key !in s.configs && key in s'.configs && s'.configs - {key} == s.configs
            && s'.configs[key].authority == authority && s'.configs[key].supportedMint == mint != DEFAULT_KEY
            && s'.configs[key].protocolProgramId == protocol && s'.configs[key].version == version
            && Find(d.derive, d.id, ConfigSeeds(mint, version)) == Some((key, s'.configs[key].bump))
  {
    hide Find, ConfigSeeds;
  }

  /** A new position is empty and its owner's, at its found address; nothing else changes. */
  lemma PositionStores(d: Deployment, s: State, config: Pubkey, key: Pubkey, owner: Pubkey)
    requires AfterInitializePosition(d, s, config, key, owner).Ok?
    ensures var s' := AfterInitializePosition(d, s, config, key, owner).value;
            && s'.configs == s.configs && config in s.configs && key !in s.positions && key in s'.positions
            && s'.positions - {key} == s.positions
            && s'.positions[key].owner == owner && s'.positions[key].depositedAmount == 0
            && s'.positions[key].shares == 0 && s'.positions[key].lastValue == 0
            && Find(d.derive, d.id, PositionSeeds(config, owner)) == Some((key, s'.positions[key].bump))
  {
    hide Find, Create, ConfigSeeds, PositionSeeds;
  }

  /** Creating an account needs its found address, unused; what else can be wrong comes first or last. */
  lemma CreationOutcome(d: Deployment, s: State, authority: Pubkey, key: Pubkey, mint: Pubkey, protocol: Pubkey,
                        version: u16, config: Pubkey, owner: Pubkey)
    ensures var r := AfterInitializeAdapter(d, s, authority, key, mint, protocol, version);
            var found := Find(d.derive, d.id, ConfigSeeds(mint, version));
            if found.None? then r == Err(NoUsableBump)
            else if found.value.0 != key then r == Err(ConstraintSeeds)
            else if key in s.configs || key in s.positions then r == Err(AccountInUse)
            else if mint == DEFAULT_KEY then r == Err(InvalidMint) else r.Ok?
    ensures var r := AfterInitializePosition(d, s, config, key, owner);
            var found := Find(d.derive, d.id, PositionSeeds(config, owner));
            if config !in s.configs then r == Err(AccountNotInitialized)
            else if found.None? then r == Err(NoUsableBump)
            else if found.value.0 != key then r == Err(ConstraintSeeds)
            else if key in s.configs || key in s.positions then r == Err(AccountInUse)
            else if ConfigAddress(d, s.configs[config]) != Some(config) then r == Err(ConstraintSeeds) else r.Ok?
  {
    hide Find, Create, ConfigSeeds, PositionSeeds;
  }

  /** Where the fields sit in the seeds. */
  lemma SeedsLayout(mint: Pubkey, version: u16, config: Pubkey, owner: Pubkey)
    ensures var seeds := ConfigSeeds(mint, version);
            && |seeds| == 48 && seeds[..14] == Ascii("adapter_config") && seeds[14..46] == mint
            && ReadU16(seeds, 46) == Some(version)
    ensures var seeds := PositionSeeds(config, owner);
            |seeds| == 77 && seeds[..13] == Ascii("user_position") && seeds[13..45] == config && seeds[45..77] == owner
  {
    hide Ascii, LeBytes16, LeValue, Pow256;
    AppendedField(Ascii("adapter_config") + mint, LeBytes16(version), ConfigSeeds(mint, version));
  }

  /** Instructions that do not reach a handler: unknown data first, then too few accounts. */
  lemma ProcessRefusals(d: Deployment, s: State, cpi: Cpi)
    ensures Process(d, s, cpi) ==
            if Decode(cpi.data).None? then Err(UnknownInstruction)
            else if |cpi.accounts| < 4 then Err(AccountNotEnoughKeys)
            else Handle(d, s, Passed(cpi.accounts[0], cpi.accounts[1], cpi.accounts[2], cpi.accounts[3]),
                        Decode(cpi.data).value)
  {
    hide Handle, Decode;
  }

  /** The demands an error of a handler stands for. */
  predicate Meets(e: TemplateError, d: Deployment, s: State, p: Passed, request: Request) {
    var moves := !request.CurrentValue?;
    var (held, known) := (p.position.key in s.positions, p.config.key in s.configs);
    match e
    case AccountNotInitialized => known && held
    case AccountNotSigner => p.owner.isSigner
    case ConstraintSeeds =>
      && (known ==> ConfigAddress(d, s.configs[p.config.key]) == Some(p.config.key))
      && (held ==> PositionAddress(d, p.config.key, s.positions[p.position.key]) == Some(p.position.key))
    case ConstraintMut => moves ==> p.position.isWritable
    case InvalidAmount => moves ==> request.amount != 0
    case InvalidMint => known ==> p.mint.key == s.configs[p.config.key].supportedMint
    case InvalidOwner => held ==> p.owner.key == s.positions[p.position.key].owner
    case MathOverflow =>
      held ==>
        var position := s.positions[p.position.key];
        && (request.Deposit? ==>
              position.depositedAmount + request.amount < TWO_64 && position.shares + request.amount < TWO_64)
        && (request.Withdraw? ==> request.amount <= position.depositedAmount && request.amount <= position.shares)
    case _ => true
  }

  predicate MeetsAll(d: Deployment, s: State, p: Passed, request: Request) {
    forall e :: Meets(e, d, s, p, request)
  }

  lemma Refusal(d: Deployment, s: State, p: Passed, request: Request)
    requires Handle(d, s, p, request).Err?
    ensures !Meets(Handle(d, s, p, request).error, d, s, p, request)
  {
    hide Find, Create, ConfigSeeds, PositionSeeds, LeBytes64;
  }

  lemma Handled(e: TemplateError, d: Deployment, s: State, p: Passed, request: Request)
    requires Handle(d, s, p, request).Ok?
    ensures Meets(e, d, s, p, request)
  {
    hide Find, Create, ConfigSeeds, PositionSeeds, LeBytes64;
  }

  /** A handler succeeds exactly when every demand is met, and each refusal names one that is not. */
  lemma HandleOutcome(d: Deployment, s: State, p: Passed, request: Request)
    ensures var r := Handle(d, s, p, request);
            && (r.Ok? <==> MeetsAll(d, s, p, request))
            && (r.Err? ==> !Meets(r.error, d, s, p, request))
  {
    hide Handle, Meets;
    if Handle(d, s, p, request).Ok? {
      forall e ensures Meets(e, d, s, p, request) {
        Handled(e, d, s, p, request);
      }
    } else {
      Refusal(d, s, p, request);
    }
  }
}
