/** What the registry keeps over every run, and what its addresses and statuses promise to others. */
module RegistryRuns {
  import opened Wrappers
  import opened MachineInts
  import opened Bytes
  import opened Pda
  import opened Text
  import opened Registry

  /** Entry seeds name their adapter: fixed-width fields leave no two ways to read them. */
  lemma EntrySeedsInjective(a: Adapter, b: Adapter)
    ensures EntrySeeds(a) == EntrySeeds(b) <==> a == b
  {
    if EntrySeeds(a) == EntrySeeds(b) {
      var head := Ascii("adapter_entry");
      var (s, t) := (EntrySeeds(a), EntrySeeds(b));
      assert a.programId == s[|head|..|head| + 32] == t[|head|..|head| + 32] == b.programId;
      assert a.mint == s[|head| + 32..|head| + 64] == t[|head| + 32..|head| + 64] == b.mint;
      assert LeBytes16(a.version) == s[|head| + 64..] == t[|head| + 64..] == LeBytes16(b.version);
      assert a.version == LeValue(LeBytes16(a.version));
    }
  }

  /** With a bump appended they are still apart from each other and from the configuration's. */
  lemma SeedsWithBumpInjective(a: Adapter, b: Adapter, i: u8, j: u8)
    ensures EntrySeeds(a) + [i] == EntrySeeds(b) + [j] <==> a == b && i == j
    ensures EntrySeeds(a) + [i] != ConfigSeeds() + [j]
  {
    var (s, t) := (EntrySeeds(a) + [i], EntrySeeds(b) + [j]);
    assert |s| == 80 == |t| && |ConfigSeeds() + [j]| == 16;
    if s == t {
      assert EntrySeeds(a) == s[..79] == t[..79] == EntrySeeds(b);
      assert s[79] == i && t[79] == j;
    }
    EntrySeedsInjective(a, b);
  }

  /** One entry per adapter: two entries for the same program, mint and version are the same entry. */
  lemma OneEntryPerAdapter(d: Deployment, calls: seq<Call>, k: Pubkey, l: Pubkey)
    requires k in Run(d, EMPTY, calls).entries && l in Run(d, EMPTY, calls).entries
    ensures var s := Run(d, EMPTY, calls);
            AdapterOf(s.entries[k]) == AdapterOf(s.entries[l]) ==> k == l
  {
    hide EntrySeeds, Find, ConfigSeeds;
    ReachableSound(d, calls);
    assert EntrySound(d, k, Run(d, EMPTY, calls).entries[k]);
  }

  /** The order entries go through their statuses; nothing leaves `Deprecated`. */
  predicate MayMove(from: AdapterStatus, to: AdapterStatus) {
    || from == to
    || (from.Pending? && (to.Approved? || to.Deprecated?))
    || (from.Approved? && (to.Paused? || to.Deprecated?))
    || (from.Paused? && (to.Approved? || to.Deprecated?))
  }

  predicate SameIdentity(before: AdapterEntry, after: AdapterEntry) {
    && AdapterOf(after) == AdapterOf(before) && after.protocolName == before.protocolName
    && after.createdSlot == before.createdSlot && after.bump == before.bump
  }

  /** One step: entries stay, keep their identity, and change only under the configured authority. */
  lemma StepKeepsEntries(d: Deployment, s: State, call: Call, k: Pubkey)
    requires Sound(d, s) && k in s.entries
    ensures var s' := Step(d, s, call);
            && k in s'.entries && SameIdentity(s.entries[k], s'.entries[k])
            && MayMove(s.entries[k].status, s'.entries[k].status)
            && (s'.entries[k] != s.entries[k] ==>
                  && call.instruction.Govern? && call.instruction.entry == k
                  && call.config in s.configs && call.signer == s.configs[call.config].authority
                  && s'.entries[k].updatedSlot == call.slot)
  {
    hide Find, Create, Governed, CheckInputs, EntrySeeds, ConfigSeeds;
    if call.instruction.Govern? && Apply(d, s, call).Ok? {
      GovernedKeeps(s.entries[call.instruction.entry], call.instruction.action, call.slot);
    }
  }

  /** Over whole runs: no entry disappears or changes what it is for, and deprecation is final. */
  lemma {:induction false} EntriesPermanent(d: Deployment, s: State, calls: seq<Call>, k: Pubkey)
    requires Sound(d, s) && k in s.entries
    ensures var now := Run(d, s, calls);
            && Sound(d, now) && k in now.entries && SameIdentity(s.entries[k], now.entries[k])
            && (s.entries[k].status.Deprecated? ==> now.entries[k].status.Deprecated?)
            && (!s.entries[k].status.Pending? ==> !now.entries[k].status.Pending?)
  {
    hide Sound, Step;
    if calls == [] {
    } else {
      var before := calls[..|calls| - 1];
      EntriesPermanent(d, s, before, k);
      StepSound(d, Run(d, s, before), calls[|calls| - 1]);
      StepKeepsEntries(d, Run(d, s, before), calls[|calls| - 1], k);
    }
  }

  /** Exactly when a governing call succeeds: stored seeds never get in the way of a reachable entry. */
  lemma GovernSucceeds(d: Deployment, calls: seq<Call>, call: Call)
    requires call.instruction.Govern?
    ensures var s := Run(d, EMPTY, calls);
            var Govern(key, action) := call.instruction;
            Apply(d, s, call).Ok? <==>
              && call.config in s.configs && s.configs[call.config].authority == call.signer
              && key in s.entries && NextStatus(s.entries[key].status, action).Some?
              && (action.UpdateMetadata? ==> CheckMetadataUri(action.metadataUri).Ok?)
  {
    hide Find, EntrySeeds, ConfigSeeds, Create, CheckMetadataUri, CheckProtocolName;
    ReachableSound(d, calls);
    var s := Run(d, EMPTY, calls);
    if call.config in s.configs && call.instruction.entry in s.entries {
      assert EntrySound(d, call.instruction.entry, s.entries[call.instruction.entry]);
      FindCreates(d.derive, d.id, ConfigSeeds());
      FindCreates(d.derive, d.id, EntrySeeds(AdapterOf(s.entries[call.instruction.entry])));
    }
  }

  /** Exactly when a proposal succeeds, and that a second proposal of the same adapter never does. */
  lemma ProposeSucceeds(d: Deployment, calls: seq<Call>, call: Call)
    requires call.instruction.ProposeAdapter?
    ensures var s := Run(d, EMPTY, calls);
            var ProposeAdapter(key, adapter, name, uri) := call.instruction;
            && (Apply(d, s, call).Ok? <==>
                  && call.config in s.configs && s.configs[call.config].authority == call.signer
                  && IsFound(d.derive, d.id, EntrySeeds(adapter), key)
                  && key !in s.configs && key !in s.entries
                  && CheckInputs(adapter, name, uri).Ok? && |s.entries| < TWO_64 - 1)
            && (forall k | k in s.entries && AdapterOf(s.entries[k]) == adapter :: Apply(d, s, call).Err?)
  {
    hide Find, EntrySeeds, ConfigSeeds, Create, CheckInputs;
    ReachableSound(d, calls);
    var s := Run(d, EMPTY, calls);
    FindConfigCreates(d, s, call.config);
    forall k | k in s.entries && AdapterOf(s.entries[k]) == call.instruction.adapter ensures Apply(d, s, call).Err? {
      assert EntrySound(d, k, s.entries[k]);
    }
  }

  lemma FindConfigCreates(d: Deployment, s: State, key: Pubkey)
    requires Sound(d, s)
    ensures key in s.configs ==> Create(d.derive, d.id, ConfigSeeds(), s.configs[key].bump) == Some(key)
  {
    hide Find, Create, ConfigSeeds, EntrySound;
    if key in s.configs {
      FindCreates(d.derive, d.id, ConfigSeeds());
    }
  }

  predicate SlotsOrdered(calls: seq<Call>) {
    forall i, j | 0 <= i <= j < |calls| :: calls[i].slot <= calls[j].slot
  }

  lemma StepKeepsSlots(d: Deployment, s: State, call: Call)
    requires forall k | k in s.entries :: s.entries[k].createdSlot <= s.entries[k].updatedSlot <= call.slot
    ensures var s' := Step(d, s, call);
            forall k | k in s'.entries :: s'.entries[k].createdSlot <= s'.entries[k].updatedSlot <= call.slot
  {
    hide Find, Create, Governed, CheckInputs, EntrySeeds, ConfigSeeds;
    if call.instruction.Govern? && Apply(d, s, call).Ok? {
      GovernedKeeps(s.entries[call.instruction.entry], call.instruction.action, call.slot);
    }
  }

  /** While the clock does not run backwards, no entry is updated before it was created. */
  lemma {:induction false} CreatedBeforeUpdated(d: Deployment, calls: seq<Call>)
    requires SlotsOrdered(calls)
    ensures forall k | k in Run(d, EMPTY, calls).entries ::
              var entry := Run(d, EMPTY, calls).entries[k];
              entry.createdSlot <= entry.updatedSlot && calls != [] && entry.updatedSlot <= calls[|calls| - 1].slot
  {
    if calls == [] {
    } else {
      var before := calls[..|calls| - 1];
      CreatedBeforeUpdated(d, before);
      StepKeepsSlots(d, Run(d, EMPTY, before), calls[|calls| - 1]);
    }
  }

  /** The space allocated for an entry: discriminator, then every field at its largest. */
  const ENTRY_LEN := 8 + 32 + 4 + MAX_PROTOCOL_NAME_LEN + 2 + 32 + 1 + 4 + MAX_METADATA_URI_LEN + 8 + 8 + 1

  function StatusByte(status: AdapterStatus): u8 {
    match status
    case Pending => 0
    case Approved => 1
    case Paused => 2
    case Deprecated => 3
  }

  function Serialize(discriminator: seq<u8>, entry: AdapterEntry): (b: seq<u8>)
    requires |discriminator| == 8 && |Utf8(entry.protocolName)| < TWO_32 && |Utf8(entry.metadataUri)| < TWO_32
    ensures |b| == ENTRY_LEN - (MAX_PROTOCOL_NAME_LEN - |Utf8(entry.protocolName)|)
                             - (MAX_METADATA_URI_LEN - |Utf8(entry.metadataUri)|)
  {
    discriminator + entry.programId + BorshString(entry.protocolName) + LeBytes16(entry.version) + entry.mint
    + [StatusByte(entry.status)] + BorshString(entry.metadataUri)
    + LeBytes64(entry.createdSlot) + LeBytes64(entry.updatedSlot) + [entry.bump]
  }

  /** No reachable entry outgrows its account, however often its metadata was rewritten. */
  lemma EntriesFit(d: Deployment, calls: seq<Call>, k: Pubkey, discriminator: seq<u8>)
    requires |discriminator| == 8 && k in Run(d, EMPTY, calls).entries
    ensures var entry := Run(d, EMPTY, calls).entries[k];
            && 0 < |Utf8(entry.protocolName)| <= MAX_PROTOCOL_NAME_LEN
            && 0 < |Utf8(entry.metadataUri)| <= MAX_METADATA_URI_LEN
            && |Serialize(discriminator, entry)| <= ENTRY_LEN == 420
            && entry.programId != DEFAULT_KEY && entry.mint != DEFAULT_KEY
  {
    hide Find, EntrySeeds, ConfigSeeds, Utf8, Serialize;
    ReachableSound(d, calls);
    assert EntrySound(d, k, Run(d, EMPTY, calls).entries[k]);
  }

  /** The configuration is unique, canonical, and counts the entries. */
  lemma CountsEntries(d: Deployment, calls: seq<Call>)
    ensures var s := Run(d, EMPTY, calls);
            && (s.configs == map[] ==> s.entries == map[])
            && (forall k, l | k in s.configs && l in s.configs :: k == l)
            && (forall k | k in s.configs :: IsFound(d.derive, d.id, ConfigSeeds(), k)
                                              && s.configs[k].adapterCount == |s.entries|)
            && (forall k | k in s.entries :: IsFound(d.derive, d.id, EntrySeeds(AdapterOf(s.entries[k])), k))
  {
    hide Find, EntrySeeds, ConfigSeeds, CheckInputs;
    ReachableSound(d, calls);
    var s := Run(d, EMPTY, calls);
    forall k | k in s.entries ensures IsFound(d.derive, d.id, EntrySeeds(AdapterOf(s.entries[k])), k) {
      assert EntrySound(d, k, s.entries[k]);
    }
  }
}
