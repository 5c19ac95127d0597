/** What each registry instruction stores, what it refuses with which error, and what entries remember over runs. */
module RegistryOutcomes {
  import opened Wrappers
  import opened MachineInts
  import opened Bytes
  import opened Pda
  import opened Text
  import opened Registry
  import opened RegistryRuns

  /** A text worth storing: something other than white space, in at most `limit` bytes of UTF-8. */
  predicate Acceptable(text: string, limit: nat) {
    (exists i :: 0 <= i < |text| && !IsWhiteSpace(text[i])) && |Utf8(text)| <= limit
  }

  lemma NameOutcome(name: string)
    ensures CheckProtocolName(name) ==
            if forall i | 0 <= i < |name| :: IsWhiteSpace(name[i]) then Err(EmptyProtocolName)
            else if 64 < |Utf8(name)| then Err(ProtocolNameTooLong) else Ok(())
  {
    TrimmedEmpty(name);
  }

  lemma UriOutcome(uri: string)
    ensures CheckMetadataUri(uri) ==
            if forall i | 0 <= i < |uri| :: IsWhiteSpace(uri[i]) then Err(EmptyMetadataUri)
            else if 256 < |Utf8(uri)| then Err(MetadataUriTooLong) else Ok(())
  {
    TrimmedEmpty(uri);
  }

  /** Exactly which inputs a proposal accepts, and what each refusal says of them. */
  lemma InputsOutcome(adapter: Adapter, name: string, uri: string)
    ensures CheckInputs(adapter, name, uri).Ok? <==>
              && adapter.programId != DEFAULT_KEY && adapter.mint != DEFAULT_KEY
              && Acceptable(name, 64) && Acceptable(uri, 256)
    ensures CheckInputs(adapter, name, uri) == Err(InvalidAdapterProgramId) <==> adapter.programId == DEFAULT_KEY
    ensures CheckInputs(adapter, name, uri) == Err(InvalidSupportedMint) <==>
            adapter.programId != DEFAULT_KEY && Acceptable(name, 64) && adapter.mint == DEFAULT_KEY
    ensures adapter.programId != DEFAULT_KEY ==>
              && (CheckProtocolName(name).Err? ==> CheckInputs(adapter, name, uri) == CheckProtocolName(name))
              && (Acceptable(name, 64) && adapter.mint != DEFAULT_KEY ==>
                    CheckInputs(adapter, name, uri) == CheckMetadataUri(uri))
  {
    hide IsWhiteSpace, Utf8, CheckProtocolName, CheckMetadataUri;
    NameOutcome(name);
    UriOutcome(uri);
  }

  /** What a proposal stores: every field of the new entry, one more on the counter, and nothing else. */
  lemma ProposalStores(d: Deployment, s: State, call: Call)
    requires call.instruction.ProposeAdapter? && Apply(d, s, call).Ok?
    ensures var (s', k) := (Apply(d, s, call).value, call.instruction.entry);
            && k !in s.entries && k in s'.entries
            && AdapterOf(s'.entries[k]) == call.instruction.adapter
            && s'.entries[k].protocolName == call.instruction.protocolName
            && s'.entries[k].metadataUri == call.instruction.metadataUri
            && s'.entries[k].status == Pending
            && s'.entries[k].createdSlot == s'.entries[k].updatedSlot == call.slot
            && Find(d.derive, d.id, EntrySeeds(call.instruction.adapter)) == Some((k, s'.entries[k].bump))
            && s'.entries - {k} == s.entries
            && call.config in s.configs && call.config in s'.configs
            && s'.configs[call.config].adapterCount == s.configs[call.config].adapterCount + 1
            && s'.configs[call.config].authority == s.configs[call.config].authority == call.signer
            && s'.configs[call.config].bump == s.configs[call.config].bump
            && s'.configs - {call.config} == s.configs - {call.config}
  {
    hide Find, Create, CheckInputs, EntrySeeds, ConfigSeeds;
  }

  /** What an action stores: only status, metadata and slot of its own entry, the metadata only when asked to. */
  lemma ActionStores(d: Deployment, s: State, call: Call)
    requires call.instruction.Govern? && Apply(d, s, call).Ok?
    ensures var (s', Govern(k, action)) := (Apply(d, s, call).value, call.instruction);
            && s'.configs == s.configs && k in s.entries && k in s'.entries && s'.entries - {k} == s.entries - {k}
            && SameIdentity(s.entries[k], s'.entries[k]) && s'.entries[k].updatedSlot == call.slot
            && s'.entries[k].metadataUri ==
               (if action.UpdateMetadata? then action.metadataUri else s.entries[k].metadataUri)
            && match action
               case Approve => s.entries[k].status == Pending && s'.entries[k].status == Approved
               case Pause => s.entries[k].status == Approved && s'.entries[k].status == Paused
               case Unpause => s.entries[k].status == Paused && s'.entries[k].status == Approved
               case Deprecate => s.entries[k].status != Deprecated && s'.entries[k].status == Deprecated
               case UpdateMetadata(_) => s'.entries[k].status == s.entries[k].status
  {
    hide Find, Create, CheckMetadataUri, EntrySeeds, ConfigSeeds;
  }

  /** What the other two instructions store. */
  lemma ConfigStores(d: Deployment, s: State, call: Call)
    requires (call.instruction.InitializeRegistry? || call.instruction.TransferGovernance?) && Apply(d, s, call).Ok?
    ensures var s' := Apply(d, s, call).value;
            && s'.entries == s.entries && call.config in s'.configs
            && s'.configs - {call.config} == s.configs - {call.config}
            && match call.instruction
               case InitializeRegistry =>
                 && call.config !in s.configs && s'.configs[call.config].adapterCount == 0
                 && s'.configs[call.config].authority == call.signer
                 && Find(d.derive, d.id, ConfigSeeds()) == Some((call.config, s'.configs[call.config].bump))
               case TransferGovernance(newAuthority) =>
                 && call.config in s.configs && s.configs[call.config].authority == call.signer
                 && s'.configs[call.config] == s.configs[call.config].(authority := newAuthority)
               case _ => true
  {
    hide Find, Create, ConfigSeeds;
  }

  /** Exactly when governance is handed over in a reachable registry, and the error otherwise. */
  lemma TransferOutcome(d: Deployment, calls: seq<Call>, call: Call)
    requires call.instruction.TransferGovernance?
    ensures var s := Run(d, EMPTY, calls);
            Outcome(d, s, call) ==
            if call.config !in s.configs then Err(AccountNotInitialized)
            else if s.configs[call.config].authority != call.signer then Err(UnauthorizedGovernance)
            else if call.instruction.newAuthority == DEFAULT_KEY then Err(InvalidGovernanceAuthority)
            else Ok(())
  {
    hide Find, Create, ConfigSeeds, Run;
    ReachableSound(d, calls);
    FindConfigCreates(d, Run(d, EMPTY, calls), call.config);
  }

  /** Exactly when a reachable registry can be initialized: once, and only at the canonical address. */
  lemma InitializeOutcome(d: Deployment, calls: seq<Call>, call: Call)
    requires call.instruction.InitializeRegistry?
    ensures var s := Run(d, EMPTY, calls);
            && (Outcome(d, s, call).Ok? <==> s.configs == map[] && IsFound(d.derive, d.id, ConfigSeeds(), call.config))
            && (Outcome(d, s, call) == Err(AccountInUse) <==>
                  s.configs != map[] && IsFound(d.derive, d.id, ConfigSeeds(), call.config))
  {
    hide Find, ConfigSeeds, Run, EntrySound;
    ReachableSound(d, calls);
  }

  /** The error of a governing call in a reachable registry; its accounts' seeds are never at fault. */
  lemma GovernOutcome(d: Deployment, calls: seq<Call>, call: Call)
    requires call.instruction.Govern?
    ensures var s := Run(d, EMPTY, calls);
            var Govern(k, action) := call.instruction;
            Outcome(d, s, call) ==
            if call.config !in s.configs || k !in s.entries then Err(AccountNotInitialized)
            else if s.configs[call.config].authority != call.signer then Err(UnauthorizedGovernance)
            else if action.UpdateMetadata? then CheckMetadataUri(action.metadataUri)
            else if Allowed(s.entries[k].status, action) then Ok(()) else Err(InvalidStatusTransition)
  {
    hide Find, EntrySeeds, ConfigSeeds, Create, CheckMetadataUri, CheckProtocolName, Run, Utf8, IsWhiteSpace;
    ReachableSound(d, calls);
    var s := Run(d, EMPTY, calls);
    FindConfigCreates(d, s, call.config);
    if call.instruction.action.UpdateMetadata? {
      UriOutcome(call.instruction.action.metadataUri);
    }
    if call.instruction.entry in s.entries {
      assert EntrySound(d, call.instruction.entry, s.entries[call.instruction.entry]);
      FindCreates(d.derive, d.id, EntrySeeds(AdapterOf(s.entries[call.instruction.entry])));
    }
  }

  predicate Allowed(status: AdapterStatus, action: Action) {
    || (action == Approve && status == Pending) || (action == Pause && status == Approved)
    || (action == Unpause && status == Paused) || (action == Deprecate && status != Deprecated)
  }

  /** The error of a proposal in a reachable registry whose new entry is passed at its found address. */
  lemma ProposeOutcome(d: Deployment, calls: seq<Call>, call: Call)
    requires call.instruction.ProposeAdapter?
    requires IsFound(d.derive, d.id, EntrySeeds(call.instruction.adapter), call.instruction.entry)
    ensures var s := Run(d, EMPTY, calls);
            var ProposeAdapter(k, adapter, name, uri) := call.instruction;
            Outcome(d, s, call) ==
            if call.config !in s.configs then Err(AccountNotInitialized)
            else if k in s.configs || k in s.entries then Err(AccountInUse)
            else if s.configs[call.config].authority != call.signer then Err(UnauthorizedGovernance)
            else if CheckInputs(adapter, name, uri).Err? then CheckInputs(adapter, name, uri)
            else if |s.entries| + 1 == TWO_64 then Err(AdapterCountOverflow) else Ok(())
  {
    hide Find, EntrySeeds, ConfigSeeds, Create, CheckInputs, Run;
    ReachableSound(d, calls);
    FindConfigCreates(d, Run(d, EMPTY, calls), call.config);
  }

  /** Loading refuses, in any state, what is absent, does not lie at its own seeds, or is not the signer's. */
  lemma LoadRefusals(d: Deployment, s: State, key: Pubkey, signer: Pubkey)
    ensures var (r, known) := (LoadConfig(d, s, key, signer), key in s.configs);
            var lies := known && Create(d.derive, d.id, ConfigSeeds(), s.configs[key].bump) == Some(key);
            && (r == Err(AccountNotInitialized) <==> !known) && (r == Err(ConstraintSeeds) <==> known && !lies)
            && (r == Err(UnauthorizedGovernance) <==> lies && s.configs[key].authority != signer)
            && (r.Ok? <==> lies && s.configs[key].authority == signer) && (r.Ok? ==> r.value == s.configs[key])
    ensures var (r, known) := (LoadEntry(d, s, key), key in s.entries);
            var lies := known && Create(d.derive, d.id, EntrySeeds(AdapterOf(s.entries[key])), s.entries[key].bump) ==
                                 Some(key);
            && (r == Err(AccountNotInitialized) <==> !known) && (r == Err(ConstraintSeeds) <==> known && !lies)
            && (r.Ok? <==> lies) && (r.Ok? ==> r.value == s.entries[key])
  {
    hide Create, ConfigSeeds, EntrySeeds;
  }

  /** What the successful calls of a run said last about an entry. */
  datatype Memory = Memory(adapter: Adapter, name: string, uri: string, created: u64, updated: u64)

  function Remembered(d: Deployment, calls: seq<Call>, k: Pubkey): Option<Memory> {
    if calls == [] then None else
      var (front, last) := (calls[..|calls| - 1], calls[|calls| - 1]);
      var before := Remembered(d, front, k);
      if Apply(d, Run(d, EMPTY, front), last).Err? then before else
        match last.instruction
        case ProposeAdapter(entry, adapter, name, uri) =>
          if entry == k then Some(Memory(adapter, name, uri, last.slot, last.slot)) else before
        case Govern(entry, action) =>
          if entry != k || before.None? then before
          else if action.UpdateMetadata? then Some(before.value.(uri := action.metadataUri, updated := last.slot))
          else Some(before.value.(updated := last.slot))
        case _ => before
  }

  function MemoryOf(entry: AdapterEntry): Memory {
    Memory(AdapterOf(entry), entry.protocolName, entry.metadataUri, entry.createdSlot, entry.updatedSlot)
  }

  /**
   Over every run an entry holds what was last said of it: name and creation slot from its proposal, the
   metadata last proposed or set, and the slot of the last call that governed it.
   */
  lemma {:induction false} EntriesRemember(d: Deployment, calls: seq<Call>, k: Pubkey)
    ensures var entries := Run(d, EMPTY, calls).entries;
            Remembered(d, calls, k) == if k in entries then Some(MemoryOf(entries[k])) else None
  {
    hide Apply;
    if calls == [] {
    } else {
      var (front, last) := (calls[..|calls| - 1], calls[|calls| - 1]);
      EntriesRemember(d, front, k);
      var s := Run(d, EMPTY, front);
      if Apply(d, s, last).Ok? {
        match last.instruction
        case ProposeAdapter(entry, _, _, _) =>
          ProposalStores(d, s, last);
          assert k != entry ==> (k in Apply(d, s, last).value.entries - {entry} <==> k in s.entries);
        case Govern(entry, _) =>
          ActionStores(d, s, last);
          assert k != entry ==> (k in Apply(d, s, last).value.entries - {entry} <==> k in s.entries - {entry});
        case _ => ConfigStores(d, s, last);
      }
    }
  }

  /** Every field of a stored entry reads back from its serialized form. */
  lemma SerializedFields(discriminator: seq<u8>, entry: AdapterEntry)
    requires |discriminator| == 8 && |Utf8(entry.protocolName)| < TWO_32 && |Utf8(entry.metadataUri)| < TWO_32
    ensures var (data, n) := (Serialize(discriminator, entry), |Utf8(entry.protocolName)|);
            var u := |Utf8(entry.metadataUri)|;
            && ReadKey(data, 8) == Some(entry.programId)
            && ReadU32(data, 40) == Some(n) && Slice(data, 44, n) == Some(Utf8(entry.protocolName))
            && ReadU16(data, 44 + n) == Some(entry.version) && ReadKey(data, 46 + n) == Some(entry.mint)
            && Slice(data, 78 + n, 1) == Some([StatusByte(entry.status)])
            && ReadU32(data, 79 + n) == Some(u) && Slice(data, 83 + n, u) == Some(Utf8(entry.metadataUri))
            && ReadU64(data, 83 + n + u) == Some(entry.createdSlot)
            && ReadU64(data, 91 + n + u) == Some(entry.updatedSlot)
            && Slice(data, 99 + n + u, 1) == Some([entry.bump])
  {
    hide LeBytes16, LeBytes32, LeBytes64, LeValue, Pow256, Slice, Utf8, StatusByte, Serialize;
    var (name, uri) := (Utf8(entry.protocolName), Utf8(entry.metadataUri));
    var data := Serialize(discriminator, entry);
    var p2 := discriminator + entry.programId;
    var p3 := p2 + LeBytes32(|name|);
    var p4 := p3 + name;
    var p5 := p4 + LeBytes16(entry.version);
    var p6 := p5 + entry.mint;
    var p7 := p6 + [StatusByte(entry.status)];
    var p8 := p7 + LeBytes32(|uri|);
    var p9 := p8 + uri;
    var p10 := p9 + LeBytes64(entry.createdSlot);
    var p11 := p10 + LeBytes64(entry.updatedSlot);
    SerializedParts(discriminator, entry);
    AppendedField(p11, [entry.bump], data);
    AppendedField(p10, LeBytes64(entry.updatedSlot), data);
    AppendedField(p9, LeBytes64(entry.createdSlot), data);
    AppendedField(p8, uri, data);
    AppendedField(p7, LeBytes32(|uri|), data);
    AppendedField(p6, [StatusByte(entry.status)], data);
    AppendedField(p5, entry.mint, data);
    AppendedField(p4, LeBytes16(entry.version), data);
    AppendedField(p3, name, data);
    AppendedField(p2, LeBytes32(|name|), data);
    AppendedField(discriminator, entry.programId, data);
  }

  lemma SerializedParts(discriminator: seq<u8>, entry: AdapterEntry)
    requires |discriminator| == 8 && |Utf8(entry.protocolName)| < TWO_32 && |Utf8(entry.metadataUri)| < TWO_32
    ensures var (name, uri) := (Utf8(entry.protocolName), Utf8(entry.metadataUri));
            Serialize(discriminator, entry) ==
            discriminator + entry.programId + LeBytes32(|name|) + name + LeBytes16(entry.version) + entry.mint
            + [StatusByte(entry.status)] + LeBytes32(|uri|) + uri
            + LeBytes64(entry.createdSlot) + LeBytes64(entry.updatedSlot) + [entry.bump]
  {
    hide LeBytes16, LeBytes32, LeBytes64, LeValue, Pow256, Utf8, StatusByte;
  }

  /** Where the three fields sit in an entry's seeds. */
  lemma EntrySeedsLayout(adapter: Adapter)
    ensures var seeds := EntrySeeds(adapter);
            && |seeds| == 79 && seeds[..13] == Ascii("adapter_entry")
            && seeds[13..45] == adapter.programId && seeds[45..77] == adapter.mint
            && ReadU16(seeds, 77) == Some(adapter.version)
            && ConfigSeeds() == Ascii("registry_config")
  {
    hide Ascii, LeBytes16, LeValue, Pow256;
    var head := Ascii("adapter_entry") + adapter.programId + adapter.mint;
    AppendedField(head, LeBytes16(adapter.version), EntrySeeds(adapter));
  }
}
