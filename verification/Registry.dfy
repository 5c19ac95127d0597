/** The adapter registry: who may govern it, where its accounts live, and how an entry's status moves. */
module Registry {
  import opened Wrappers
  import opened MachineInts
  import opened Bytes
  import opened Pda
  import opened Text

  const MAX_PROTOCOL_NAME_LEN := 64
  const MAX_METADATA_URI_LEN := 256

  datatype RegistryError =
    | UnauthorizedGovernance
    | EmptyProtocolName
    | EmptyMetadataUri
    | InvalidAdapterProgramId
    | InvalidSupportedMint
    | InvalidGovernanceAuthority
    | ProtocolNameTooLong
    | MetadataUriTooLong
    | InvalidStatusTransition
    | AdapterCountOverflow
    // Failures of the account loading in front of the program.
    | AccountNotInitialized
    | AccountInUse
    | ConstraintSeeds
    | NoUsableBump

  datatype AdapterStatus = Pending | Approved | Paused | Deprecated

  datatype AdapterEntry = AdapterEntry(
    programId: Pubkey,
    protocolName: string,
    version: u16,
    mint: Pubkey,
    status: AdapterStatus,
    metadataUri: string,
    createdSlot: u64,
    updatedSlot: u64,
    bump: u8
  )

  datatype RegistryConfig = RegistryConfig(authority: Pubkey, adapterCount: u64, bump: u8)

  /** Every account the registry program owns. */
  datatype State = State(configs: map<Pubkey, RegistryConfig>, entries: map<Pubkey, AdapterEntry>)

  const EMPTY := State(map[], map[])

  /** What an entry is for; its address is derived from these three fields. */
  datatype Adapter = Adapter(programId: Pubkey, mint: Pubkey, version: u16)

  datatype Action = Approve | Pause | Unpause | Deprecate | UpdateMetadata(metadataUri: string)

  datatype Instruction =
    | InitializeRegistry
    | ProposeAdapter(entry: Pubkey, adapter: Adapter, protocolName: string, metadataUri: string)
    | Govern(entry: Pubkey, action: Action)
    | TransferGovernance(newAuthority: Pubkey)

  /** A signed instruction, the configuration account it passes, and the slot it runs in. */
  datatype Call = Call(signer: Pubkey, slot: u64, config: Pubkey, instruction: Instruction)

  function ConfigSeeds(): seq<u8> {
    Ascii("registry_config")
  }

  function EntrySeeds(adapter: Adapter): seq<u8> {
    Ascii("adapter_entry") + adapter.programId + adapter.mint + LeBytes16(adapter.version)
  }

  function AdapterOf(entry: AdapterEntry): Adapter {
    Adapter(entry.programId, entry.mint, entry.version)
  }

  function CheckProtocolName(name: string): Result<(), RegistryError> {
    if Trim(name) == "" then Err(EmptyProtocolName)
    else if MAX_PROTOCOL_NAME_LEN < |Utf8(name)| then Err(ProtocolNameTooLong)
    else Ok(())
  }

  function CheckMetadataUri(uri: string): Result<(), RegistryError> {
    if Trim(uri) == "" then Err(EmptyMetadataUri)
    else if MAX_METADATA_URI_LEN < |Utf8(uri)| then Err(MetadataUriTooLong)
    else Ok(())
  }

  function CheckInputs(adapter: Adapter, name: string, uri: string): Result<(), RegistryError> {
    if adapter.programId == DEFAULT_KEY then Err(InvalidAdapterProgramId) else
      var _ :- CheckProtocolName(name);
      if adapter.mint == DEFAULT_KEY then Err(InvalidSupportedMint)
      else CheckMetadataUri(uri)
  }

  /** Creating an account: only at the address found for its seeds, and only once. */
  function Allocate(d: Deployment, s: State, seeds: seq<u8>, key: Pubkey): Result<u8, RegistryError> {
    match Find(d.derive, d.id, seeds)
    case None => Err(NoUsableBump)
    case Some((found, bump)) =>
      if key != found then Err(ConstraintSeeds)
      else if key in s.configs || key in s.entries then Err(AccountInUse)
      else Ok(bump)
  }

  function LoadConfig(d: Deployment, s: State, key: Pubkey, signer: Pubkey): Result<RegistryConfig, RegistryError> {
    if key !in s.configs then Err(AccountNotInitialized)
    else if Create(d.derive, d.id, ConfigSeeds(), s.configs[key].bump) != Some(key) then Err(ConstraintSeeds)
    else if s.configs[key].authority != signer then Err(UnauthorizedGovernance)
    else Ok(s.configs[key])
  }

  function LoadEntry(d: Deployment, s: State, key: Pubkey): Result<AdapterEntry, RegistryError> {
    if key !in s.entries then Err(AccountNotInitialized)
    else if Create(d.derive, d.id, EntrySeeds(AdapterOf(s.entries[key])), s.entries[key].bump) != Some(key)
    then Err(ConstraintSeeds)
    else Ok(s.entries[key])
  }

  /** The status an action leaves behind, if the entry may take it. */
  function NextStatus(status: AdapterStatus, action: Action): Option<AdapterStatus> {
    match action
    case Approve => if status.Pending? then Some(Approved) else None
    case Pause => if status.Approved? then Some(Paused) else None
    case Unpause => if status.Paused? then Some(Approved) else None
    case Deprecate => if status.Deprecated? then None else Some(Deprecated)
    case UpdateMetadata(_) => Some(status)
  }

  function Governed(entry: AdapterEntry, action: Action, slot: u64): Result<AdapterEntry, RegistryError> {
    var _ :- if action.UpdateMetadata? then CheckMetadataUri(action.metadataUri) else Ok(());
    var status :- NextStatus(entry.status, action).OkOr(InvalidStatusTransition);
    var uri := if action.UpdateMetadata? then action.metadataUri else entry.metadataUri;
    Ok(entry.(status := status, metadataUri := uri, updatedSlot := slot))
  }

  function Apply(d: Deployment, s: State, call: Call): Result<State, RegistryError> {
    match call.instruction
    case InitializeRegistry =>
      var bump :- Allocate(d, s, ConfigSeeds(), call.config);
      Ok(s.(configs := s.configs[call.config := RegistryConfig(call.signer, 0, bump)]))
    case ProposeAdapter(key, adapter, name, uri) =>
      if call.config !in s.configs then Err(AccountNotInitialized) else
        var bump :- Allocate(d, s, EntrySeeds(adapter), key);
        var config :- LoadConfig(d, s, call.config, call.signer);
        var _ :- CheckInputs(adapter, name, uri);
        var count :- CheckedAdd64(config.adapterCount, 1).OkOr(AdapterCountOverflow);
        var entry := AdapterEntry(adapter.programId, name, adapter.version, adapter.mint, Pending, uri,
                                  call.slot, call.slot, bump);
        Ok(State(s.configs[call.config := config.(adapterCount := count)], s.entries[key := entry]))
    case Govern(key, action) =>
      if call.config !in s.configs || key !in s.entries then Err(AccountNotInitialized) else
        var _ :- LoadConfig(d, s, call.config, call.signer);
        var entry :- LoadEntry(d, s, key);
        var governed :- Governed(entry, action, call.slot);
        Ok(s.(entries := s.entries[key := governed]))
    case TransferGovernance(newAuthority) =>
      var config :- LoadConfig(d, s, call.config, call.signer);
      if newAuthority == DEFAULT_KEY then Err(InvalidGovernanceAuthority)
      else Ok(s.(configs := s.configs[call.config := config.(authority := newAuthority)]))
  }

  function Outcome(d: Deployment, s: State, call: Call): Result<(), RegistryError> {
    var _ :- Apply(d, s, call);
    Ok(())
  }

  /** A failed call leaves every account as it was. */
  function Step(d: Deployment, s: State, call: Call): State {
    match Apply(d, s, call)
    case Ok(s') => s'
    case Err(_) => s
  }

  function Run(d: Deployment, s: State, calls: seq<Call>): State {
    if calls == [] then s else Step(d, Run(d, s, calls[..|calls| - 1]), calls[|calls| - 1])
  }

  /** One configuration at its canonical address that counts the entries, each at its own canonical address. */
  ghost predicate Sound(d: Deployment, s: State) {
    && (s.configs == map[] ==> s.entries == map[])
    && (forall k | k in s.configs ::
          && Find(d.derive, d.id, ConfigSeeds()) == Some((k, s.configs[k].bump))
          && s.configs[k].adapterCount == |s.entries|)
    && (forall k | k in s.entries :: EntrySound(d, k, s.entries[k]))
  }

  predicate EntrySound(d: Deployment, key: Pubkey, entry: AdapterEntry) {
    && Find(d.derive, d.id, EntrySeeds(AdapterOf(entry))) == Some((key, entry.bump))
    && CheckInputs(AdapterOf(entry), entry.protocolName, entry.metadataUri).Ok?
  }

  class Program {
    const deployment: Deployment
    var configs: map<Pubkey, RegistryConfig>
    var entries: map<Pubkey, AdapterEntry>

    ghost predicate Valid()
      reads this
    {
      Sound(deployment, Now())
    }

    function Now(): State
      reads this
    {
      State(configs, entries)
    }

    constructor (deployment: Deployment)
      ensures Valid() && this.deployment == deployment && Now() == EMPTY
    {
      this.deployment := deployment;
      configs, entries := map[], map[];
    }

    method InitializeRegistry(signer: Pubkey, slot: u64, configKey: Pubkey) returns (r: Result<(), RegistryError>)
      requires Valid()
      modifies this
      ensures Valid()
      ensures var call := Call(signer, slot, configKey, Instruction.InitializeRegistry);
              r == Outcome(deployment, old(Now()), call) && Now() == Step(deployment, old(Now()), call)
      ensures r.Err? ==> unchanged(this)
    {
      hide Sound, Find, Ascii;
      StepSound(deployment, Now(), Call(signer, slot, configKey, Instruction.InitializeRegistry));
      var bump :- Allocate(deployment, Now(), ConfigSeeds(), configKey);
      configs := configs[configKey := RegistryConfig(signer, 0, bump)];
      return Ok(());
    }

    method ProposeAdapter(signer: Pubkey, slot: u64, configKey: Pubkey, entryKey: Pubkey, adapter: Adapter,
                          protocolName: string, metadataUri: string) returns (r: Result<(), RegistryError>)
      requires Valid()
      modifies this
      ensures Valid()
      ensures var call := Call(signer, slot, configKey,
                               Instruction.ProposeAdapter(entryKey, adapter, protocolName, metadataUri));
              r == Outcome(deployment, old(Now()), call) && Now() == Step(deployment, old(Now()), call)
      ensures r.Err? ==> unchanged(this)
    {
      hide Sound, Find, Allocate, CheckInputs, Ascii;
      StepSound(deployment, Now(), Call(signer, slot, configKey,
                                        Instruction.ProposeAdapter(entryKey, adapter, protocolName, metadataUri)));
      if configKey !in configs {
        return Err(AccountNotInitialized);
      }
      var bump :- Allocate(deployment, Now(), EntrySeeds(adapter), entryKey);
      var config :- LoadConfig(deployment, Now(), configKey, signer);
      var _ :- CheckInputs(adapter, protocolName, metadataUri);
      var count :- CheckedAdd64(config.adapterCount, 1).OkOr(AdapterCountOverflow);
      entries := entries[entryKey := AdapterEntry(adapter.programId, protocolName, adapter.version, adapter.mint,
                                                  Pending, metadataUri, slot, slot, bump)];
      configs := configs[configKey := config.(adapterCount := count)];
      return Ok(());
    }

    /** The accounts every governing instruction loads before it looks at the status. */
    method LoadGoverned(signer: Pubkey, configKey: Pubkey, entryKey: Pubkey)
      returns (r: Result<AdapterEntry, RegistryError>)
      ensures r.Err? ==> forall action, slot ::
        Apply(deployment, Now(), Call(signer, slot, configKey, Govern(entryKey, action))) == Err(r.error)
      ensures r.Ok? ==> entryKey in entries && r.value == entries[entryKey]
      ensures r.Ok? ==> forall action, slot ::
        Apply(deployment, Now(), Call(signer, slot, configKey, Govern(entryKey, action))) ==
        (var governed :- Governed(r.value, action, slot);
         Ok(Now().(entries := entries[entryKey := governed])))
    {
      hide Find, Create, Governed;
      if configKey !in configs || entryKey !in entries {
        return Err(AccountNotInitialized);
      }
      var _ :- LoadConfig(deployment, Now(), configKey, signer);
      var entry :- LoadEntry(deployment, Now(), entryKey);
      return Ok(entry);
    }

    method ApproveAdapter(signer: Pubkey, slot: u64, configKey: Pubkey, entryKey: Pubkey)
      returns (r: Result<(), RegistryError>)
      requires Valid()
      modifies this
      ensures Valid()
      ensures var call := Call(signer, slot, configKey, Govern(entryKey, Approve));
              r == Outcome(deployment, old(Now()), call) && Now() == Step(deployment, old(Now()), call)
      ensures r.Err? ==> unchanged(this)
      ensures r.Ok? ==> entryKey in old(entries) && old(entries)[entryKey].status.Pending?
      ensures r.Ok? ==> entryKey in entries && entries[entryKey].status.Approved?
    {
      hide Sound, Find, Create;
      StepSound(deployment, Now(), Call(signer, slot, configKey, Govern(entryKey, Approve)));
      var entry :- LoadGoverned(signer, configKey, entryKey);
      if !entry.status.Pending? {
        return Err(InvalidStatusTransition);
      }
      entries := entries[entryKey := entry.(status := Approved, updatedSlot := slot)];
      return Ok(());
    }

    method PauseAdapter(signer: Pubkey, slot: u64, configKey: Pubkey, entryKey: Pubkey)
      returns (r: Result<(), RegistryError>)
      requires Valid()
      modifies this
      ensures Valid()
      ensures var call := Call(signer, slot, configKey, Govern(entryKey, Pause));
              r == Outcome(deployment, old(Now()), call) && Now() == Step(deployment, old(Now()), call)
      ensures r.Err? ==> unchanged(this)
      ensures r.Ok? ==> entryKey in old(entries) && old(entries)[entryKey].status.Approved?
      ensures r.Ok? ==> entryKey in entries && entries[entryKey].status.Paused?
    {
      hide Sound, Find, Create;
      StepSound(deployment, Now(), Call(signer, slot, configKey, Govern(entryKey, Pause)));
      var entry :- LoadGoverned(signer, configKey, entryKey);
      if !entry.status.Approved? {
        return Err(InvalidStatusTransition);
      }
      entries := entries[entryKey := entry.(status := Paused, updatedSlot := slot)];
      return Ok(());
    }

    method UnpauseAdapter(signer: Pubkey, slot: u64, configKey: Pubkey, entryKey: Pubkey)
      returns (r: Result<(), RegistryError>)
      requires Valid()
      modifies this
      ensures Valid()
      ensures var call := Call(signer, slot, configKey, Govern(entryKey, Unpause));
              r == Outcome(deployment, old(Now()), call) && Now() == Step(deployment, old(Now()), call)
      ensures r.Err? ==> unchanged(this)
      ensures r.Ok? ==> entryKey in old(entries) && old(entries)[entryKey].status.Paused?
      ensures r.Ok? ==> entryKey in entries && entries[entryKey].status.Approved?
    {
      hide Sound, Find, Create;
      StepSound(deployment, Now(), Call(signer, slot, configKey, Govern(entryKey, Unpause)));
      var entry :- LoadGoverned(signer, configKey, entryKey);
      if !entry.status.Paused? {
        return Err(InvalidStatusTransition);
      }
      entries := entries[entryKey := entry.(status := Approved, updatedSlot := slot)];
      return Ok(());
    }

    method DeprecateAdapter(signer: Pubkey, slot: u64, configKey: Pubkey, entryKey: Pubkey)
      returns (r: Result<(), RegistryError>)
      requires Valid()
      modifies this
      ensures Valid()
      ensures var call := Call(signer, slot, configKey, Govern(entryKey, Deprecate));
              r == Outcome(deployment, old(Now()), call) && Now() == Step(deployment, old(Now()), call)
      ensures r.Err? ==> unchanged(this)
      ensures r.Ok? ==> entryKey in old(entries) && !old(entries)[entryKey].status.Deprecated?
      ensures r.Ok? ==> entryKey in entries && entries[entryKey].status.Deprecated?
    {
      hide Sound, Find, Create;
      StepSound(deployment, Now(), Call(signer, slot, configKey, Govern(entryKey, Deprecate)));
      var entry :- LoadGoverned(signer, configKey, entryKey);
      if entry.status.Deprecated? {
        return Err(InvalidStatusTransition);
      }
      entries := entries[entryKey := entry.(status := Deprecated, updatedSlot := slot)];
      return Ok(());
    }

    method UpdateAdapterMetadata(signer: Pubkey, slot: u64, configKey: Pubkey, entryKey: Pubkey, metadataUri: string)
      returns (r: Result<(), RegistryError>)
      requires Valid()
      modifies this
      ensures Valid()
      ensures var call := Call(signer, slot, configKey, Govern(entryKey, UpdateMetadata(metadataUri)));
              r == Outcome(deployment, old(Now()), call) && Now() == Step(deployment, old(Now()), call)
      ensures r.Err? ==> unchanged(this)
      ensures r.Ok? ==> && entryKey in old(entries) && entryKey in entries
                        && entries[entryKey].metadataUri == metadataUri
                        && entries[entryKey].status == old(entries)[entryKey].status
    {
      hide Sound, Find, Create, CheckMetadataUri;
      StepSound(deployment, Now(), Call(signer, slot, configKey, Govern(entryKey, UpdateMetadata(metadataUri))));
      var entry :- LoadGoverned(signer, configKey, entryKey);
      var _ :- CheckMetadataUri(metadataUri);
      entries := entries[entryKey := entry.(metadataUri := metadataUri, updatedSlot := slot)];
      return Ok(());
    }

    method TransferGovernance(signer: Pubkey, slot: u64, configKey: Pubkey, newAuthority: Pubkey)
      returns (r: Result<(), RegistryError>)
      requires Valid()
      modifies this
      ensures Valid()
      ensures var call := Call(signer, slot, configKey, Instruction.TransferGovernance(newAuthority));
              r == Outcome(deployment, old(Now()), call) && Now() == Step(deployment, old(Now()), call)
      ensures r.Err? ==> unchanged(this)
      ensures r.Ok? ==> && configKey in old(configs) && old(configs)[configKey].authority == signer
                        && configKey in configs && configs[configKey].authority == newAuthority != DEFAULT_KEY
    {
      hide Sound, Find, Create, Ascii;
      StepSound(deployment, Now(), Call(signer, slot, configKey, Instruction.TransferGovernance(newAuthority)));
      var config :- LoadConfig(deployment, Now(), configKey, signer);
      if newAuthority == DEFAULT_KEY {
        return Err(InvalidGovernanceAuthority);
      }
      configs := configs[configKey := config.(authority := newAuthority)];
      return Ok(());
    }
  }

  /** An action keeps everything an entry's address is derived from. */
  lemma GovernedKeeps(entry: AdapterEntry, action: Action, slot: u64)
    requires Governed(entry, action, slot).Ok?
    ensures var after := Governed(entry, action, slot).value;
            && AdapterOf(after) == AdapterOf(entry) && after.bump == entry.bump
            && after.protocolName == entry.protocolName && after.createdSlot == entry.createdSlot
            && after.updatedSlot == slot && NextStatus(entry.status, action) == Some(after.status)
            && (CheckMetadataUri(entry.metadataUri).Ok? ==> CheckMetadataUri(after.metadataUri).Ok?)
  {}

  lemma ProposeSound(d: Deployment, s: State, call: Call)
    requires Sound(d, s) && call.instruction.ProposeAdapter? && Apply(d, s, call).Ok?
    ensures Sound(d, Apply(d, s, call).value)
  {
    hide Find, Create, CheckInputs, EntrySeeds, ConfigSeeds;
    var s' := Apply(d, s, call).value;
    var key := call.instruction.entry;
    assert EntrySound(d, key, s'.entries[key]);
    assert s.entries == s'.entries - {key};
    assert |s'.entries| == |s.entries| + 1;
  }

  lemma GovernSound(d: Deployment, s: State, call: Call)
    requires Sound(d, s) && call.instruction.Govern? && Apply(d, s, call).Ok?
    ensures Sound(d, Apply(d, s, call).value)
  {
    hide Find, Create, CheckProtocolName, CheckMetadataUri, Governed, EntrySeeds, ConfigSeeds;
    var Govern(key, action) := call.instruction;
    GovernedKeeps(s.entries[key], action, call.slot);
    assert EntrySound(d, key, s.entries[key]);
    assert |Apply(d, s, call).value.entries| == |s.entries| by {
      assert Apply(d, s, call).value.entries.Keys == s.entries.Keys;
    }
  }

  lemma StepSound(d: Deployment, s: State, call: Call)
    requires Sound(d, s)
    ensures Sound(d, Step(d, s, call))
  {
    hide Find, Create, CheckInputs, Governed, EntrySeeds, ConfigSeeds, EntrySound;
    if Apply(d, s, call).Ok? {
      match call.instruction
      case Govern(_, _) => GovernSound(d, s, call);
      case ProposeAdapter(_, _, _, _) => ProposeSound(d, s, call);
      case _ =>
    }
  }

  /** Every reachable registry is sound, whoever called it with whatever accounts. */
  lemma {:induction false} ReachableSound(d: Deployment, calls: seq<Call>)
    ensures Sound(d, Run(d, EMPTY, calls))
  {
    if calls == [] {
    } else {
      ReachableSound(d, calls[..|calls| - 1]);
      StepSound(d, Run(d, EMPTY, calls[..|calls| - 1]), calls[|calls| - 1]);
    }
  }
}
