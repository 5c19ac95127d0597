/** What the log of any run shows: who governed, and what had happened to an adapter when it was routed to. */
module GovernanceLog {
  import opened Wrappers
  import opened Bytes
  import opened Pda
  import opened Interface
  import opened Ledger

  /** The authority in force after a log: the initializer, until governance is transferred. */
  function Authority(log: seq<Event>): Option<Pubkey> {
    if log == [] then None else
      match log[|log| - 1]
      case RegistryInitialized(signer) => Some(signer)
      case GovernanceTransferred(_, newAuthority) => Some(newAuthority)
      case _ => Authority(log[..|log| - 1])
  }

  /** What an entry was proposed for. */
  function Proposal(log: seq<Event>, k: Pubkey): Option<Registry.Adapter> {
    if log == [] then None else
      var last := log[|log| - 1];
      if last.AdapterProposed? && last.entry == k then Some(last.adapter) else Proposal(log[..|log| - 1], k)
  }

  function Count(log: seq<Event>, k: Pubkey, action: Registry.Action): nat {
    if log == [] then 0 else
      var last := log[|log| - 1];
      Count(log[..|log| - 1], k, action) + if last.Governed? && last.entry == k && last.action == action then 1 else 0
  }

  /** An entry open for routing: proposed, approved once, unpaused as often as paused, never deprecated. */
  predicate Open(log: seq<Event>, k: Pubkey) {
    && Proposal(log, k).Some?
    && Count(log, k, Registry.Approve) == 1
    && Count(log, k, Registry.Pause) == Count(log, k, Registry.Unpause)
    && Count(log, k, Registry.Deprecate) == 0
  }

  /** Whether an entry's history admits an action on it. */
  predicate MayAct(log: seq<Event>, k: Pubkey, action: Registry.Action) {
    match action
    case Approve => Count(log, k, Registry.Approve) == 0 && Count(log, k, Registry.Deprecate) == 0
    case Pause => Open(log, k)
    case Unpause =>
      && Count(log, k, Registry.Pause) == Count(log, k, Registry.Unpause) + 1
      && Count(log, k, Registry.Deprecate) == 0
    case Deprecate => Count(log, k, Registry.Deprecate) == 0
    case UpdateMetadata(_) => true
  }

  /** Whether an event may follow a log. */
  predicate Follows(log: seq<Event>, event: Event) {
    match event
    case RegistryInitialized(_) => Authority(log).None?
    case AdapterProposed(signer, k, _) => Authority(log) == Some(signer) && Proposal(log, k).None?
    case Governed(signer, k, action) =>
      Authority(log) == Some(signer) && Proposal(log, k).Some? && MayAct(log, k, action)
    case GovernanceTransferred(signer, newAuthority) => Authority(log) == Some(signer) && newAuthority != DEFAULT_KEY
    case Routed(_, k, program, mint, _) =>
      Open(log, k) && Proposal(log, k).value.programId == program && Proposal(log, k).value.mint == mint
    case Queried(user, k, _) =>
      exists i :: 0 <= i < |log| && log[i].Routed? && log[i].user == user && log[i].entry == k
                  && log[i].request.CurrentValue?
    case Moved(_, _, _) => true
  }

  /** A legal log: every event was allowed by everything before it. */
  predicate Legal(log: seq<Event>) {
    forall i | 0 <= i < |log| :: Follows(log[..i], log[i])
  }

  /** How an entry's status shows in the counts of its log. */
  predicate Shows(log: seq<Event>, k: Pubkey, status: Registry.AdapterStatus) {
    var (approved, paused) := (Count(log, k, Registry.Approve), Count(log, k, Registry.Pause));
    var (unpaused, deprecated) := (Count(log, k, Registry.Unpause), Count(log, k, Registry.Deprecate));
    match status
    case Pending => approved == 0 && paused == 0 && unpaused == 0 && deprecated == 0
    case Approved => approved == 1 && paused == unpaused && deprecated == 0
    case Paused => approved == 1 && paused == unpaused + 1 && deprecated == 0
    case Deprecated => approved <= 1 && deprecated == 1
  }

  /** The registry is exactly what its log says. */
  ghost predicate Recorded(s: Registry.State, log: seq<Event>) {
    && (s.configs == map[] ==> Authority(log).None?)
    && (forall c | c in s.configs :: Authority(log) == Some(s.configs[c].authority))
    && (forall k | k in s.entries ::
          Proposal(log, k) == Some(Registry.AdapterOf(s.entries[k])) && Shows(log, k, s.entries[k].status))
    && (forall k | k !in s.entries :: Proposal(log, k).None? && Shows(log, k, Registry.Pending))
  }

  function AuthorityAfter(log: seq<Event>, event: Event): Option<Pubkey> {
    match event
    case RegistryInitialized(signer) => Some(signer)
    case GovernanceTransferred(_, newAuthority) => Some(newAuthority)
    case _ => Authority(log)
  }

  predicate Counts(event: Event, k: Pubkey, action: Registry.Action) {
    event.Governed? && event.entry == k && event.action == action
  }

  lemma LastEvent(log: seq<Event>, event: Event)
    ensures Authority(log + [event]) == AuthorityAfter(log, event)
    ensures forall k :: Proposal(log + [event], k) ==
                        if event.AdapterProposed? && event.entry == k then Some(event.adapter) else Proposal(log, k)
    ensures forall k, action :: Count(log + [event], k, action) ==
                                Count(log, k, action) + if Counts(event, k, action) then 1 else 0
  {
    assert (log + [event])[..|log|] == log;
  }

  lemma InitializeRecorded(d: Deployment, s: Registry.State, log: seq<Event>, call: Registry.Call)
    requires Registry.Sound(d, s) && Recorded(s, log)
    requires call.instruction.InitializeRegistry? && Registry.Apply(d, s, call).Ok?
    ensures Follows(log, GovernanceEvent(call))
    ensures Recorded(Registry.Apply(d, s, call).value, log + [GovernanceEvent(call)])
  {
    hide Find, Registry.ConfigSeeds, Registry.EntrySeeds, Registry.EntrySound, Proposal, Authority, Count;
    LastEvent(log, GovernanceEvent(call));
    assert s.configs == map[];
  }

  lemma ProposeRecorded(d: Deployment, s: Registry.State, log: seq<Event>, call: Registry.Call)
    requires Registry.Sound(d, s) && Recorded(s, log)
    requires call.instruction.ProposeAdapter? && Registry.Apply(d, s, call).Ok?
    ensures Follows(log, GovernanceEvent(call))
    ensures Recorded(Registry.Apply(d, s, call).value, log + [GovernanceEvent(call)])
  {
    hide Find, Create, Registry.ConfigSeeds, Registry.EntrySeeds, Registry.EntrySound, Registry.CheckInputs,
         Registry.Sound, Proposal, Authority, Count;
    LastEvent(log, GovernanceEvent(call));
    OneConfig(d, s);
  }

  /** An allowed status change and the log's counts agree before and after, and other entries do not notice. */
  lemma ActionShows(log: seq<Event>, signer: Pubkey, k: Pubkey, action: Registry.Action, status: Registry.AdapterStatus)
    requires Proposal(log, k).Some? && Shows(log, k, status) && Registry.NextStatus(status, action).Some?
    ensures MayAct(log, k, action)
    ensures Shows(log + [Governed(signer, k, action)], k, Registry.NextStatus(status, action).value)
    ensures forall l, other | l != k && Shows(log, l, other) :: Shows(log + [Governed(signer, k, action)], l, other)
  {
    hide Proposal, Count;
    LastEvent(log, Governed(signer, k, action));
  }

  lemma GovernRecorded(d: Deployment, s: Registry.State, log: seq<Event>, call: Registry.Call)
    requires Registry.Sound(d, s) && Recorded(s, log)
    requires call.instruction.Govern? && Registry.Apply(d, s, call).Ok?
    ensures Follows(log, GovernanceEvent(call))
    ensures Recorded(Registry.Apply(d, s, call).value, log + [GovernanceEvent(call)])
  {
    hide Find, Create, Registry.ConfigSeeds, Registry.EntrySeeds, Registry.EntrySound, Registry.CheckMetadataUri,
         Registry.Sound, Registry.Governed, Proposal, Authority, Count, Shows, MayAct, Registry.NextStatus;
    var Govern(key, action) := call.instruction;
    Registry.GovernedKeeps(s.entries[key], action, call.slot);
    LastEvent(log, GovernanceEvent(call));
    ActionShows(log, call.signer, key, action, s.entries[key].status);
  }

  lemma TransferRecorded(d: Deployment, s: Registry.State, log: seq<Event>, call: Registry.Call)
    requires Registry.Sound(d, s) && Recorded(s, log)
    requires call.instruction.TransferGovernance? && Registry.Apply(d, s, call).Ok?
    ensures Follows(log, GovernanceEvent(call))
    ensures Recorded(Registry.Apply(d, s, call).value, log + [GovernanceEvent(call)])
  {
    hide Find, Create, Registry.ConfigSeeds, Registry.EntrySeeds, Registry.EntrySound, Registry.Sound,
         Proposal, Authority, Count;
    LastEvent(log, GovernanceEvent(call));
    OneConfig(d, s);
  }

  lemma OneConfig(d: Deployment, s: Registry.State)
    requires Registry.Sound(d, s)
    ensures forall k, l | k in s.configs && l in s.configs :: k == l
  {
    hide Find, Registry.ConfigSeeds, Registry.EntrySound;
  }

  /** A successful governance call is allowed by the log and keeps the registry in step with it. */
  lemma GovernanceRecorded(d: Deployment, s: Registry.State, log: seq<Event>, call: Registry.Call)
    requires Registry.Sound(d, s) && Recorded(s, log) && Registry.Apply(d, s, call).Ok?
    ensures Follows(log, GovernanceEvent(call))
    ensures Recorded(Registry.Apply(d, s, call).value, log + [GovernanceEvent(call)])
  {
    hide Recorded, Registry.Sound, Registry.Apply, Follows;
    match call.instruction
    case InitializeRegistry => InitializeRecorded(d, s, log, call);
    case ProposeAdapter(_, _, _, _) => ProposeRecorded(d, s, log, call);
    case Govern(_, _) => GovernRecorded(d, s, log, call);
    case TransferGovernance(_) => TransferRecorded(d, s, log, call);
  }

  /** For a sound registry the log alone decides whether the dispatcher lets a route through. */
  lemma LogDecides(d: Deployment, s: Registry.State, log: seq<Event>, k: Pubkey, program: Pubkey, mint: Pubkey)
    requires Registry.Sound(d, s) && Recorded(s, log)
    ensures (k in s.entries && Dispatcher.CheckEntry(d, k, s.entries[k], program, mint).Ok?) <==>
            Open(log, k) && Proposal(log, k).value.programId == program && Proposal(log, k).value.mint == mint
  {
    hide Find, Registry.ConfigSeeds, Registry.EntrySeeds, Registry.CheckInputs, Proposal, Authority, Count;
    if k in s.entries {
      assert Registry.EntrySound(d, k, s.entries[k]);
    } else {
      assert Proposal(log, k).None?;
    }
  }

  lemma LegalAppend(log: seq<Event>, event: Event)
    requires Legal(log) && Follows(log, event)
    ensures Legal(log + [event])
  {
    hide Follows;
    var longer := log + [event];
    forall i | 0 <= i < |longer| ensures Follows(longer[..i], longer[i]) {
      assert longer[..i] == log[..i];
      assert log[..|log|] == log;
    }
  }

  /** What is not about governance leaves the record as it was. */
  lemma OtherRecorded(s: Registry.State, log: seq<Event>, event: Event)
    requires (event.Moved? || event.Routed? || event.Queried?) && Recorded(s, log)
    ensures Recorded(s, log + [event])
  {
    hide Authority, Proposal, Count;
    LastEvent(log, event);
  }

  ghost predicate Accounted(env: Env, w: World) {
    Registry.Sound(env.registry, w.registry) && Recorded(w.registry, w.log) && Legal(w.log)
  }

  lemma ReportAccounted(env: Env, w: World, adapter: Template.State, event: Event)
    requires Accounted(env, w) && (event.Moved? || event.Routed? || event.Queried?) && Follows(w.log, event)
    ensures Accounted(env, World(w.registry, adapter, w.log + [event]))
  {
    hide Recorded, Legal, Registry.Sound, Follows;
    LegalAppend(w.log, event);
    OtherRecorded(w.registry, w.log, event);
  }

  lemma AdaptAccounted(env: Env, w: World, cpi: Cpi)
    requires Accounted(env, w) && Adapt(env, w, cpi).Some?
    ensures Accounted(env, Adapt(env, w, cpi).value.0) && w.log <= Adapt(env, w, cpi).value.0.log
  {
    hide Recorded, Legal, Registry.Sound, Template.Process, Decode, Open, Proposal;
    if AdapterEvents(cpi) == [] {
      assert w.log + AdapterEvents(cpi) == w.log;
    } else {
      assert AdapterEvents(cpi) == [AdapterEvents(cpi)[0]];
      ReportAccounted(env, w, Adapt(env, w, cpi).value.0.adapter, AdapterEvents(cpi)[0]);
    }
  }

  lemma PerformAccounted(env: Env, w: World, invocation: Invocation)
    requires Accounted(env, w) && Perform(env, w, invocation).Some?
    ensures Accounted(env, Perform(env, w, invocation).value) && w.log <= Perform(env, w, invocation).value.log
  {
    hide Recorded, Legal, Registry.Sound, Registry.Apply, Adapt, Follows,
         Template.AfterInitializeAdapter, Template.AfterInitializePosition;
    match invocation
    case Governance(call) =>
      GovernanceRecorded(env.registry, w.registry, w.log, call);
      LegalAppend(w.log, GovernanceEvent(call));
      assert Registry.Sound(env.registry, Registry.Step(env.registry, w.registry, call)) by {
        Registry.StepSound(env.registry, w.registry, call);
      }
    case Direct(cpi) => AdaptAccounted(env, w, cpi);
    case _ =>
  }

  lemma {:induction false} PerformAllAccounted(env: Env, w: World, invocations: seq<Invocation>)
    requires Accounted(env, w) && PerformAll(env, w, invocations).Some?
    ensures Accounted(env, PerformAll(env, w, invocations).value)
    ensures w.log <= PerformAll(env, w, invocations).value.log
  {
    hide Accounted, Perform;
    if invocations == [] {
    } else {
      var front := invocations[..|invocations| - 1];
      PerformAllAccounted(env, w, front);
      PerformAccounted(env, PerformAll(env, w, front).value, invocations[|invocations| - 1]);
    }
  }

  lemma InvokeAccounted(env: Env, foreign: Option<Foreign>, w: World, cpi: Cpi)
    requires Accounted(env, w) && Invoke(env, foreign, w, cpi).Some?
    ensures Accounted(env, Invoke(env, foreign, w, cpi).value.world)
    ensures w.log <= Invoke(env, foreign, w, cpi).value.world.log
  {
    hide Accounted, Adapt, PerformAll;
    if cpi.programId == env.template.id {
      AdaptAccounted(env, w, cpi);
    } else {
      PerformAllAccounted(env, w, foreign.value.invocations);
    }
  }

  lemma RouteAccounted(env: Env, w: World, route: Dispatcher.Route, request: Request, foreign: Option<Foreign>)
    requires Accounted(env, w) && Route(env, w, route, request, foreign).Some?
    ensures Accounted(env, Route(env, w, route, request, foreign).value)
  {
    hide Accounted, Invoke, Dispatcher.CheckEntry, Dispatcher.CpiFor, Dispatcher.ReadReturn, Open, Proposal;
    var (admitted, cpi) := (w.Report([RoutedEvent(route, request)]), Dispatcher.CpiFor(route, request));
    RoutedFollows(env, w, route, RoutedEvent(route, request));
    ReportAccounted(env, w, w.adapter, RoutedEvent(route, request));
    InvokeAccounted(env, foreign, admitted, cpi);
    var w' := Invoke(env, foreign, admitted, cpi).value.world;
    assert w'.Report([]) == w';
    if request.CurrentValue? {
      var value := Dispatcher.ReadReturn(Invoke(env, foreign, admitted, cpi).value.returned, route.program.key).value;
      assert w'.log[|w.log|] == admitted.log[|w.log|] == RoutedEvent(route, request);
      ReportAccounted(env, w', w'.adapter, Queried(route.user.key, route.entry, value));
    }
  }

  lemma RoutedFollows(env: Env, w: World, route: Dispatcher.Route, event: Event)
    requires Accounted(env, w) && route.entry in w.registry.entries
    requires event.Routed? && event.entry == route.entry && event.program == route.program.key
    requires event.mint == route.mint.key
    requires Dispatcher.CheckEntry(env.registry, route.entry, w.registry.entries[route.entry], route.program.key,
                                   route.mint.key).Ok?
    ensures Follows(w.log, event)
  {
    hide Recorded, Legal, Registry.Sound, Dispatcher.CheckEntry, Open, Proposal;
    LogDecides(env.registry, w.registry, w.log, route.entry, route.program.key, route.mint.key);
  }

  lemma StepAccounted(env: Env, w: World, tx: Tx)
    requires Accounted(env, w)
    ensures Accounted(env, Step(env, w, tx))
  {
    hide Accounted, Perform, Route;
    if Apply(env, w, tx).Some? {
      match tx
      case Plain(invocation) => PerformAccounted(env, w, invocation);
      case Routing(route, request, foreign) => RouteAccounted(env, w, route, request, foreign);
    }
  }

  lemma GenesisAccounted(env: Env)
    ensures Accounted(env, GENESIS)
  {}

  /** Every run's log is legal: nothing is governed without authority, nothing is routed while it is not open. */
  lemma {:induction false} RunAccounted(env: Env, txs: seq<Tx>)
    ensures Accounted(env, Run(env, txs))
  {
    hide Accounted, Step;
    if txs == [] {
      GenesisAccounted(env);
    } else {
      RunAccounted(env, txs[..|txs| - 1]);
      StepAccounted(env, Run(env, txs[..|txs| - 1]), txs[|txs| - 1]);
    }
  }

  lemma {:induction false} ProposedAt(log: seq<Event>, k: Pubkey) returns (p: nat)
    requires Proposal(log, k).Some?
    ensures p < |log| && log[p].AdapterProposed? && log[p].entry == k && Some(log[p].adapter) == Proposal(log, k)
  {
    var last := |log| - 1;
    if log[last].AdapterProposed? && log[last].entry == k {
      p := last;
    } else {
      p := ProposedAt(log[..last], k);
    }
  }

  lemma {:induction false} CountedAt(log: seq<Event>, k: Pubkey, action: Registry.Action) returns (a: nat)
    requires 0 < Count(log, k, action)
    ensures a < |log| && Counts(log[a], k, action)
  {
    var last := |log| - 1;
    if Counts(log[last], k, action) {
      a := last;
    } else {
      a := CountedAt(log[..last], k, action);
    }
  }

  lemma {:induction false} ProposalStays(log: seq<Event>, k: Pubkey, n: nat)
    requires n <= |log| && Proposal(log[..n], k).Some?
    ensures Proposal(log, k).Some?
  {
    if n == |log| {
      assert log[..n] == log;
    } else {
      assert log[..|log| - 1][..n] == log[..n];
      ProposalStays(log[..|log| - 1], k, n);
    }
  }

  /** Behind event `i` stand one proposal for its program and mint, then one approval, each by the authority. */
  predicate Preceded(log: seq<Event>, i: nat, p: nat, a: nat) {
    && p < a < i < |log| && log[i].Routed? && log[p].AdapterProposed? && log[a].Governed?
    && log[p].entry == log[a].entry == log[i].entry && log[a].action.Approve?
    && log[p].adapter.programId == log[i].program && log[p].adapter.mint == log[i].mint
    && Authority(log[..p]) == Some(log[p].signer) && Authority(log[..a]) == Some(log[a].signer)
    && (forall j | 0 <= j < i && log[j].AdapterProposed? && log[j].entry == log[i].entry :: j == p)
    && (forall j | 0 <= j < i && Counts(log[j], log[i].entry, Registry.Approve) :: j == a)
  }

  lemma {:induction false} CountFrom(log: seq<Event>, k: Pubkey, action: Registry.Action, n: nat)
    requires n < |log| && Counts(log[n], k, action)
    ensures 0 < Count(log, k, action)
  {
    if n == |log| - 1 {
    } else {
      CountFrom(log[..|log| - 1], k, action, n);
    }
  }

  lemma {:induction false} ProposalFrom(log: seq<Event>, k: Pubkey, n: nat)
    requires n < |log| && log[n].AdapterProposed? && log[n].entry == k
    ensures Proposal(log, k).Some?
  {
    if n == |log| - 1 {
    } else {
      ProposalFrom(log[..|log| - 1], k, n);
    }
  }

  /** In a legal log an entry is proposed once, and approved once. */
  lemma OnlyOnce(log: seq<Event>, m: nat, n: nat)
    requires Legal(log) && m < n < |log|
    ensures !(log[m].AdapterProposed? && log[n].AdapterProposed? && log[m].entry == log[n].entry)
    ensures log[m].Governed? && log[m].action.Approve? ==> !Counts(log[n], log[m].entry, Registry.Approve)
  {
    hide Authority, Proposal, Count;
    assert Follows(log[..n], log[n]);
    if log[m].AdapterProposed? {
      ProposalFrom(log[..n], log[m].entry, m);
    }
    if log[m].Governed? && log[m].action.Approve? {
      CountFrom(log[..n], log[m].entry, Registry.Approve, m);
    }
  }

  lemma LegalHistory(log: seq<Event>, i: nat) returns (p: nat, a: nat)
    requires Legal(log) && i < |log| && log[i].Routed?
    ensures Preceded(log, i, p, a) && Open(log[..i], log[i].entry)
  {
    hide Authority, Proposal, Count;
    var k := log[i].entry;
    assert Follows(log[..i], log[i]);
    a := CountedAt(log[..i], k, Registry.Approve);
    assert Follows(log[..a], log[a]);
    p := ProposedAt(log[..i], k);
    assert Follows(log[..p], log[p]);
    if a < p {
      assert log[..p][..a] == log[..a];
      ProposalStays(log[..p], k, a);
    }
    forall j | 0 <= j < i && log[j].AdapterProposed? && log[j].entry == k ensures j == p {
      if j != p { OnlyOnce(log, if j < p then j else p, if j < p then p else j); }
    }
    forall j | 0 <= j < i && Counts(log[j], k, Registry.Approve) ensures j == a {
      if j != a { OnlyOnce(log, if j < a then j else a, if j < a then a else j); }
    }
  }

  /** In every run, whatever was routed had been proposed and approved once, and was open at that moment. */
  lemma RoutedOnlyWhileOpen(env: Env, txs: seq<Tx>, i: nat)
    requires i < |Run(env, txs).log| && Run(env, txs).log[i].Routed?
    ensures var log := Run(env, txs).log;
            Legal(log) && Open(log[..i], log[i].entry) && exists p, a :: Preceded(log, i, p, a)
  {
    hide Run, Legal, Preceded, Open;
    RunAccounted(env, txs);
    var p, a := LegalHistory(Run(env, txs).log, i);
  }

  /** Every governance event of every run carries the authority in force when it happened. */
  lemma GovernedByAuthority(env: Env, txs: seq<Tx>, i: nat)
    requires i < |Run(env, txs).log|
    ensures var log := Run(env, txs).log;
            match log[i]
            case RegistryInitialized(_) => Authority(log[..i]).None?
            case AdapterProposed(signer, _, _) => Authority(log[..i]) == Some(signer)
            case Governed(signer, _, _) => Authority(log[..i]) == Some(signer)
            case GovernanceTransferred(signer, _) => Authority(log[..i]) == Some(signer)
            case _ => true
  {
    hide Run, Authority, Proposal, Count;
    RunAccounted(env, txs);
    assert Follows(Run(env, txs).log[..i], Run(env, txs).log[i]);
  }

  /** And the log so far decides which entries the dispatcher serves, for which program and mint. */
  lemma RunLogDecides(env: Env, txs: seq<Tx>, k: Pubkey, program: Pubkey, mint: Pubkey)
    ensures var (registry, log) := (Run(env, txs).registry, Run(env, txs).log);
            && k in registry.entries
            && Dispatcher.CheckEntry(env.registry, k, registry.entries[k], program, mint).Ok? <==>
            Open(log, k) && Proposal(log, k).value.programId == program && Proposal(log, k).value.mint == mint
  {
    hide Run, Proposal, Dispatcher.CheckEntry, Registry.Sound, Recorded;
    RunAccounted(env, txs);
    LogDecides(env.registry, Run(env, txs).registry, Run(env, txs).log, k, program, mint);
  }

  /** The converse of the log's rules: whatever it admits from the authority, the registry does. */
  lemma GovernedByLog(env: Env, txs: seq<Tx>, call: Registry.Call)
    requires call.instruction.Govern?
    ensures var (registry, log) := (Run(env, txs).registry, Run(env, txs).log);
            var Govern(k, action) := call.instruction;
            Registry.Apply(env.registry, registry, call).Ok? <==>
              && call.config in registry.configs && Authority(log) == Some(call.signer) && Proposal(log, k).Some?
              && MayAct(log, k, action)
              && (action.UpdateMetadata? ==> Registry.CheckMetadataUri(action.metadataUri).Ok?)
  {
    hide Run, Proposal, Authority, Count, Find, Create, Registry.EntrySeeds, Registry.ConfigSeeds,
         Registry.CheckMetadataUri, Registry.CheckProtocolName;
    RunAccounted(env, txs);
    var (s, k) := (Run(env, txs).registry, call.instruction.entry);
    if call.config in s.configs && k in s.entries {
      assert Registry.EntrySound(env.registry, k, s.entries[k]);
      FindCreates(env.registry.derive, env.registry.id, Registry.ConfigSeeds());
      FindCreates(env.registry.derive, env.registry.id, Registry.EntrySeeds(Registry.AdapterOf(s.entries[k])));
    }
  }
}
