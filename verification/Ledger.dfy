/** Registry, dispatcher and reference adapter run together, with the log of what succeeded. */
module Ledger {
  import opened Wrappers
  import opened MachineInts
  import opened Bytes
  import opened Pda
  import opened Interface
  import Registry
  import Dispatcher
  import Template

  /**
   What successful instructions report, as their events do. A routed call is logged where the dispatcher
   admits it, before the adapter runs, and the answer to a query after the adapter has run.
   */
  datatype Event =
    | RegistryInitialized(signer: Pubkey)
    | AdapterProposed(signer: Pubkey, entry: Pubkey, adapter: Registry.Adapter)
    | Governed(signer: Pubkey, entry: Pubkey, action: Registry.Action)
    | GovernanceTransferred(signer: Pubkey, newAuthority: Pubkey)
    | Routed(user: Pubkey, entry: Pubkey, program: Pubkey, mint: Pubkey, request: Request)
    | Queried(user: Pubkey, entry: Pubkey, value: u64)
    | Moved(position: Pubkey, owner: Pubkey, request: Request)

  datatype World = World(registry: Registry.State, adapter: Template.State, log: seq<Event>) {
    function Report(events: seq<Event>): World {
      this.(log := log + events)
    }
  }

  const GENESIS := World(Registry.EMPTY, Template.EMPTY, [])

  datatype Env = Env(registry: Deployment, template: Deployment)

  /** An instruction of the registry or of the reference adapter, whoever invokes it. */
  datatype Invocation =
    | Governance(call: Registry.Call)
    | Direct(cpi: Cpi)
    | InitializeAdapter(authority: Pubkey, config: Pubkey, mint: Pubkey, protocol: Pubkey, version: u16)
    | InitializePosition(config: Pubkey, position: Pubkey, owner: Pubkey)

  /** What another adapter does this time: any invocations of its own, and any return data or none. */
  datatype Foreign = Foreign(invocations: seq<Invocation>, returned: Option<(Pubkey, seq<u8>)>)

  /** A transaction invokes a program directly, or through the dispatcher; a foreign adapter may also fail. */
  datatype Tx =
    | Plain(invocation: Invocation)
    | Routing(route: Dispatcher.Route, request: Request, foreign: Option<Foreign>)

  function GovernanceEvent(call: Registry.Call): Event {
    match call.instruction
    case InitializeRegistry => RegistryInitialized(call.signer)
    case ProposeAdapter(entry, adapter, _, _) => AdapterProposed(call.signer, entry, adapter)
    case Govern(entry, action) => Governed(call.signer, entry, action)
    case TransferGovernance(newAuthority) => GovernanceTransferred(call.signer, newAuthority)
  }

  /** What the reference adapter reports of an instruction it processed. */
  function AdapterEvents(cpi: Cpi): seq<Event> {
    match Decode(cpi.data)
    case Some(CurrentValue) => []
    case Some(request) =>
      if 4 <= |cpi.accounts| then [Moved(cpi.accounts[1].key, cpi.accounts[2].key, request)] else []
    case None => []
  }

  function RoutedEvent(route: Dispatcher.Route, request: Request): Event {
    Routed(route.user.key, route.entry, route.program.key, route.mint.key, request)
  }

  function AnswerEvents(route: Dispatcher.Route, value: Option<u64>): seq<Event> {
    match value
    case Some(v) => [Queried(route.user.key, route.entry, v)]
    case None => []
  }

  /** The reference adapter at work, with its return data. */
  function Adapt(env: Env, w: World, cpi: Cpi): Option<(World, Option<seq<u8>>)> {
    match Template.Process(env.template, w.adapter, cpi)
    case Err(_) => None
    case Ok((adapter, data)) => Some((World(w.registry, adapter, w.log + AdapterEvents(cpi)), data))
  }

  function Perform(env: Env, w: World, invocation: Invocation): Option<World> {
    match invocation
    case Governance(call) =>
      (match Registry.Apply(env.registry, w.registry, call)
       case Err(_) => None
       case Ok(registry) => Some(World(registry, w.adapter, w.log + [GovernanceEvent(call)])))
    case Direct(cpi) =>
      var adapted :- Adapt(env, w, cpi);
      Some(adapted.0)
    case InitializeAdapter(authority, config, mint, protocol, version) =>
      (match Template.AfterInitializeAdapter(env.template, w.adapter, authority, config, mint, protocol, version)
       case Err(_) => None
       case Ok(adapter) => Some(w.(adapter := adapter)))
    case InitializePosition(config, position, owner) =>
      (match Template.AfterInitializePosition(env.template, w.adapter, config, position, owner)
       case Err(_) => None
       case Ok(adapter) => Some(w.(adapter := adapter)))
  }

  /** Invocations inside one transaction: if one fails, all do. */
  function PerformAll(env: Env, w: World, invocations: seq<Invocation>): Option<World> {
    if invocations == [] then Some(w) else
      var before :- PerformAll(env, w, invocations[..|invocations| - 1]);
      Perform(env, before, invocations[|invocations| - 1])
  }

  function Invoke(env: Env, foreign: Option<Foreign>, w: World, cpi: Cpi): Option<Dispatcher.Reply<World>> {
    if cpi.programId == env.template.id then
      var adapted :- Adapt(env, w, cpi);
      Some(Dispatcher.Reply(adapted.0, SetBy(env.template.id, adapted.1)))
    else
      var behaviour :- foreign;
      var w' :- PerformAll(env, w, behaviour.invocations);
      Some(Dispatcher.Reply(w', behaviour.returned))
  }

  function SetBy(program: Pubkey, data: Option<seq<u8>>): Option<(Pubkey, seq<u8>)> {
    match data
    case Some(bytes) => Some((program, bytes))
    case None => None
  }

  function Route(env: Env, w: World, route: Dispatcher.Route, request: Request, foreign: Option<Foreign>)
    : Option<World>
  {
    match Dispatcher.Routed(env.registry, w.registry, route, request, w.Report([RoutedEvent(route, request)]),
                            (admitted, cpi, _) => Invoke(env, foreign, admitted, cpi))
    case Err(_) => None
    case Ok((w', value)) => Some(w'.Report(AnswerEvents(route, value)))
  }

  function Apply(env: Env, w: World, tx: Tx): Option<World> {
    match tx
    case Plain(invocation) => Perform(env, w, invocation)
    case Routing(route, request, foreign) => Route(env, w, route, request, foreign)
  }

  /** A transaction that fails anywhere leaves the registry, every position and the log as they were. */
  function Step(env: Env, w: World, tx: Tx): World {
    match Apply(env, w, tx)
    case Some(w') => w'
    case None => w
  }

  function Run(env: Env, txs: seq<Tx>): World {
    if txs == [] then GENESIS else Step(env, Run(env, txs[..|txs| - 1]), txs[|txs| - 1])
  }

  /** Deposits into a position minus withdrawals from it, as the log has them. */
  function Balance(log: seq<Event>, position: Pubkey): int {
    if log == [] then 0 else Balance(log[..|log| - 1], position) + Change(log[|log| - 1], position)
  }

  function Change(event: Event, position: Pubkey): int {
    if event.Moved? && event.position == position then Delta(event.request) else 0
  }

  function Delta(request: Request): int {
    match request
    case Deposit(amount) => amount
    case Withdraw(amount) => 0 - amount
    case CurrentValue => 0
  }

  lemma {:induction false} BalanceAppend(log: seq<Event>, more: seq<Event>, position: Pubkey)
    ensures Balance(log + more, position) == Balance(log, position) + Balance(more, position)
  {
    if more == [] {
      assert log + more == log;
    } else {
      assert (log + more)[..|log + more| - 1] == log + more[..|more| - 1];
      BalanceAppend(log, more[..|more| - 1], position);
    }
  }

  lemma BalanceOne(event: Event, position: Pubkey)
    ensures Balance([event], position) == Change(event, position)
  {
    assert [event][..0] == [];
  }

  predicate OwnMoves(log: seq<Event>, positions: map<Pubkey, Template.UserPosition>) {
    forall e | e in log && e.Moved? :: e.position in positions && e.owner == positions[e.position].owner
  }

  /** The adapter's counters say what the log says, and only owners moved anything. */
  ghost predicate Agrees(env: Env, w: World) {
    && Template.Sound(env.template, w.adapter)
    && OwnMoves(w.log, w.adapter.positions)
    && (forall k | k !in w.adapter.positions :: Balance(w.log, k) == 0)
    && (forall k | k in w.adapter.positions :: w.adapter.positions[k].depositedAmount == Balance(w.log, k))
  }

  /** What a processed instruction does to the one position it names. */
  lemma ProcessFacts(d: Deployment, s: Template.State, cpi: Cpi)
    requires Template.Process(d, s, cpi).Ok?
    ensures 4 <= |cpi.accounts| && Decode(cpi.data).Some?
    ensures var (s', data) := Template.Process(d, s, cpi).value;
            var (k, owner, request) := (cpi.accounts[1].key, cpi.accounts[2], Decode(cpi.data).value);
            && k in s.positions && owner.isSigner && owner.key == s.positions[k].owner
            && (request.CurrentValue? ==> s' == s && data == Some(LeBytes64(s.positions[k].lastValue)))
            && s'.configs == s.configs && k in s'.positions && s'.positions == s.positions[k := s'.positions[k]]
            && s'.positions[k].owner == owner.key && s'.positions[k].bump == s.positions[k].bump
            && s'.positions[k].depositedAmount == s.positions[k].depositedAmount + Delta(request)
            && s'.positions[k].shares == s.positions[k].shares + Delta(request)
            && (!request.CurrentValue? ==> s'.positions[k].lastValue == s'.positions[k].depositedAmount && data.None?)
  {
    hide Decode, Template.CheckPassed, LeBytes64;
    var p := Template.Passed(cpi.accounts[0], cpi.accounts[1], cpi.accounts[2], cpi.accounts[3]);
    var request := Decode(cpi.data).value;
    Template.PassedExists(d, s, p, !request.CurrentValue?);
    if request.CurrentValue? {
      assert s.positions[p.position.key := s.positions[p.position.key]] == s.positions;
    }
  }

  lemma ProcessSound(d: Deployment, s: Template.State, cpi: Cpi)
    requires Template.Sound(d, s) && Template.Process(d, s, cpi).Ok?
    ensures Template.Sound(d, Template.Process(d, s, cpi).value.0)
  {
    hide Template.Process, Template.Homed, Template.ConfigSeeds, Find, Decode, LeBytes64;
    ProcessFacts(d, s, cpi);
    Template.HomesStay(d, s, Template.Process(d, s, cpi).value.0);
  }

  /** What a processed instruction adds to the log: at most one move of the position it names. */
  lemma AdapterEventsBalance(log: seq<Event>, cpi: Cpi, k: Pubkey)
    requires 4 <= |cpi.accounts| && Decode(cpi.data).Some?
    ensures Balance(log + AdapterEvents(cpi), k) ==
            Balance(log, k) + if k == cpi.accounts[1].key then Delta(Decode(cpi.data).value) else 0
    ensures forall e | e in AdapterEvents(cpi) ::
              e.Moved? && e.position == cpi.accounts[1].key && e.owner == cpi.accounts[2].key
  {
    hide Decode;
    var events := AdapterEvents(cpi);
    BalanceAppend(log, events, k);
    if events != [] {
      BalanceOne(events[0], k);
    }
  }

  /** One processed instruction, seen from the ledger. */
  lemma AdaptAgrees(env: Env, w: World, cpi: Cpi)
    requires Agrees(env, w) && Adapt(env, w, cpi).Some?
    ensures Agrees(env, Adapt(env, w, cpi).value.0)
  {
    hide Decode, Template.Process, Template.Sound, LeBytes64, Balance, AdapterEvents;
    ProcessFacts(env.template, w.adapter, cpi);
    ProcessSound(env.template, w.adapter, cpi);
    forall k ensures Balance(w.log + AdapterEvents(cpi), k) ==
                     Balance(w.log, k) + if k == cpi.accounts[1].key then Delta(Decode(cpi.data).value) else 0
    {
      AdapterEventsBalance(w.log, cpi, k);
    }
    AdapterEventsBalance(w.log, cpi, cpi.accounts[1].key);
  }

  /** Reporting what moves nothing keeps the agreement, whatever happened to the registry. */
  lemma SilentAgrees(env: Env, w: World, registry: Registry.State, event: Event)
    requires Agrees(env, w) && !event.Moved?
    ensures Agrees(env, World(registry, w.adapter, w.log + [event]))
  {
    hide Template.Sound, Balance;
    forall k ensures Balance(w.log + [event], k) == Balance(w.log, k) {
      BalanceAppend(w.log, [event], k);
      BalanceOne(event, k);
    }
  }

  lemma OpenedAgrees(env: Env, w: World, config: Pubkey, position: Pubkey, owner: Pubkey)
    requires Agrees(env, w)
    requires Template.AfterInitializePosition(env.template, w.adapter, config, position, owner).Ok?
    ensures Agrees(env, w.(adapter :=
                      Template.AfterInitializePosition(env.template, w.adapter, config, position, owner).value))
  {
    hide Balance, Find, Template.Homed, Create;
    Template.HomeOpened(env.template, w.adapter, config, position, owner);
  }

  lemma PerformAgrees(env: Env, w: World, invocation: Invocation)
    requires Agrees(env, w) && Perform(env, w, invocation).Some?
    ensures Agrees(env, Perform(env, w, invocation).value)
  {
    hide Adapt, Registry.Apply, Balance, Find, Template.Homed, Template.AfterInitializePosition;
    match invocation
    case Governance(call) =>
      SilentAgrees(env, w, Registry.Apply(env.registry, w.registry, call).value, GovernanceEvent(call));
    case Direct(cpi) => AdaptAgrees(env, w, cpi);
    case InitializeAdapter(_, _, _, _, _) =>
      Template.HomesStay(env.template, w.adapter, Perform(env, w, invocation).value.adapter);
    case InitializePosition(config, position, owner) => OpenedAgrees(env, w, config, position, owner);
  }

  lemma {:induction false} PerformAllAgrees(env: Env, w: World, invocations: seq<Invocation>)
    requires Agrees(env, w) && PerformAll(env, w, invocations).Some?
    ensures Agrees(env, PerformAll(env, w, invocations).value)
  {
    hide Agrees, Perform;
    if invocations == [] {
    } else {
      var front := invocations[..|invocations| - 1];
      PerformAllAgrees(env, w, front);
      PerformAgrees(env, PerformAll(env, w, front).value, invocations[|invocations| - 1]);
    }
  }

  /** Whatever adapter is invoked, and whatever it invokes in turn. */
  lemma InvokeAgrees(env: Env, foreign: Option<Foreign>, w: World, cpi: Cpi)
    requires Agrees(env, w) && Invoke(env, foreign, w, cpi).Some?
    ensures Agrees(env, Invoke(env, foreign, w, cpi).value.world)
  {
    hide Agrees, Adapt, PerformAll;
    if cpi.programId == env.template.id {
      AdaptAgrees(env, w, cpi);
    } else {
      PerformAllAgrees(env, w, foreign.value.invocations);
    }
  }

  lemma RouteAgrees(env: Env, w: World, route: Dispatcher.Route, request: Request, foreign: Option<Foreign>)
    requires Agrees(env, w) && Route(env, w, route, request, foreign).Some?
    ensures Agrees(env, Route(env, w, route, request, foreign).value)
  {
    hide Agrees, Invoke, Dispatcher.CheckRoute, Dispatcher.CpiFor, Dispatcher.ReadReturn;
    var (admitted, cpi) := (w.Report([RoutedEvent(route, request)]), Dispatcher.CpiFor(route, request));
    SilentAgrees(env, w, w.registry, RoutedEvent(route, request));
    InvokeAgrees(env, foreign, admitted, cpi);
    var w' := Invoke(env, foreign, admitted, cpi).value.world;
    assert w'.Report([]) == w';
    if request.CurrentValue? {
      var value := Dispatcher.ReadReturn(Invoke(env, foreign, admitted, cpi).value.returned, route.program.key).value;
      SilentAgrees(env, w', w'.registry, Queried(route.user.key, route.entry, value));
    }
  }

  lemma StepAgrees(env: Env, w: World, tx: Tx)
    requires Agrees(env, w)
    ensures Agrees(env, Step(env, w, tx))
  {
    hide Agrees, Perform, Route;
    if Apply(env, w, tx).Some? {
      match tx
      case Plain(invocation) => PerformAgrees(env, w, invocation);
      case Routing(route, request, foreign) => RouteAgrees(env, w, route, request, foreign);
    }
  }

  lemma GenesisAgrees(env: Env)
    ensures Agrees(env, GENESIS)
  {}

  /** After any run of governance, routed and direct calls, every counter is deposits minus withdrawals. */
  lemma {:induction false} LedgerHolds(env: Env, txs: seq<Tx>)
    ensures Agrees(env, Run(env, txs))
  {
    hide Agrees, Step;
    if txs == [] {
      GenesisAgrees(env);
    } else {
      LedgerHolds(env, txs[..|txs| - 1]);
      StepAgrees(env, Run(env, txs[..|txs| - 1]), txs[|txs| - 1]);
    }
  }

  lemma Counters(env: Env, txs: seq<Tx>, k: Pubkey)
    requires k in Run(env, txs).adapter.positions
    ensures var (position, log) := (Run(env, txs).adapter.positions[k], Run(env, txs).log);
            && position.depositedAmount == position.shares == position.lastValue == Balance(log, k)
            && 0 <= Balance(log, k) < TWO_64
            && forall e | e in log && e.Moved? && e.position == k :: e.owner == position.owner
  {
    hide Run, Balance, Find, Template.Homed;
    LedgerHolds(env, txs);
  }

  /** The accounts a routed request needs at the reference adapter. */
  predicate Addressed(env: Env, s: Template.State, route: Dispatcher.Route) {
    && route.config.key in s.configs && route.position.key in s.positions
    && Template.PositionAddress(env.template, route.config.key, s.positions[route.position.key]) ==
       Some(route.position.key)
    && route.mint.key == s.configs[route.config.key].supportedMint
    && route.user.key == s.positions[route.position.key].owner
  }

  /** What the ledger itself has to say about a request. */
  predicate Covered(log: seq<Event>, position: Pubkey, request: Request) {
    match request
    case Deposit(amount) => Balance(log, position) + amount < TWO_64
    case Withdraw(amount) => amount <= Balance(log, position)
    case CurrentValue => true
  }

  /** From routed instruction bytes to the adapter's handler and its four accounts. */
  lemma ProcessRouted(d: Deployment, s: Template.State, route: Dispatcher.Route, request: Request)
    ensures var prefix := Dispatcher.Prefix(route, request);
            Template.Process(d, s, Dispatcher.CpiFor(route, request)) ==
            Template.Handle(d, s, Template.Passed(prefix[0], prefix[1], prefix[2], prefix[3]), request)
    ensures var cpi := Dispatcher.CpiFor(route, request);
            && Decode(cpi.data) == Some(request) && 4 <= |cpi.accounts| && cpi.programId == route.program.key
            && cpi.accounts[1].key == route.position.key && cpi.accounts[2].key == route.user.key
  {
    hide Template.Handle, Decode, Encode;
    DecodeEncode(request);
    Dispatcher.AccountsForwarded(route, request);
  }

  lemma SoundAddresses(env: Env, s: Template.State, config: Pubkey)
    requires Template.Sound(env.template, s) && config in s.configs
    ensures Template.ConfigAddress(env.template, s.configs[config]) == Some(config)
  {
    hide Find, Template.Homed, Template.ConfigSeeds;
    FindCreates(env.template.derive, env.template.id,
                Template.ConfigSeeds(s.configs[config].supportedMint, s.configs[config].version));
  }

  /** The adapter accepts a routed request exactly when it is properly addressed and the ledger covers it. */
  lemma ProcessSucceeds(env: Env, w: World, route: Dispatcher.Route, request: Request)
    requires Agrees(env, w) && (!request.CurrentValue? ==> request.amount != 0)
    ensures Template.Process(env.template, w.adapter, Dispatcher.CpiFor(route, request)).Ok? <==>
            Addressed(env, w.adapter, route) && Covered(w.log, route.position.key, request)
  {
    hide Template.Process, Dispatcher.CpiFor, Template.ConfigAddress, Template.PositionAddress,
         LeBytes64, Balance, OwnMoves, Template.Homed, Find;
    ProcessRouted(env.template, w.adapter, route, request);
    if route.config.key in w.adapter.configs {
      SoundAddresses(env, w.adapter, route.config.key);
    }
  }

  lemma ReturnReads(program: Pubkey, s: Template.State, k: Pubkey)
    requires k in s.positions
    ensures Dispatcher.ReadReturn(Some((program, LeBytes64(s.positions[k].lastValue))), program) ==
            Ok(s.positions[k].lastValue)
  {
    Dispatcher.ReadReturnExact(Some((program, LeBytes64(s.positions[k].lastValue))), program, s.positions[k].lastValue);
  }

  /** Routing to the reference adapter, in terms of its own entry point. */
  lemma RouteToTemplate(env: Env, w: World, route: Dispatcher.Route, request: Request, foreign: Option<Foreign>)
    requires route.program.key == env.template.id
    ensures var cpi := Dispatcher.CpiFor(route, request);
            var processed := Template.Process(env.template, w.adapter, cpi);
            && (Route(env, w, route, request, foreign).Some? <==>
                  Dispatcher.CheckRoute(env.registry, w.registry, route, request).Ok? && processed.Ok?)
            && (processed.Ok? ==> route.position.key in w.adapter.positions)
            && (Route(env, w, route, request, foreign).Some? ==>
                  var answer := if request.CurrentValue?
                                then Some(w.adapter.positions[route.position.key].lastValue) else None;
                  Route(env, w, route, request, foreign).value ==
                  World(w.registry, processed.value.0,
                        w.log + [RoutedEvent(route, request)] + AdapterEvents(cpi) + AnswerEvents(route, answer)))
  {
    hide Template.Process, Dispatcher.CheckRoute, Dispatcher.CpiFor, LeBytes64, Dispatcher.ReadReturn, Decode,
         AdapterEvents;
    var cpi := Dispatcher.CpiFor(route, request);
    ProcessRouted(env.template, w.adapter, route, request);
    if Template.Process(env.template, w.adapter, cpi).Ok? {
      ProcessFacts(env.template, w.adapter, cpi);
      ReturnReads(env.template.id, w.adapter, route.position.key);
    }
  }

  lemma RoutedSucceeds(env: Env, txs: seq<Tx>, route: Dispatcher.Route, request: Request, foreign: Option<Foreign>)
    requires route.program.key == env.template.id
    ensures var w := Run(env, txs);
            Apply(env, w, Routing(route, request, foreign)).Some? <==>
              && Dispatcher.CheckRoute(env.registry, w.registry, route, request).Ok?
              && Addressed(env, w.adapter, route) && Covered(w.log, route.position.key, request)
  {
    hide Run, Agrees, Template.Process, Route, Dispatcher.CheckEntry, Dispatcher.CpiFor, Addressed, Covered;
    LedgerHolds(env, txs);
    var w := Run(env, txs);
    RouteToTemplate(env, w, route, request, foreign);
    if Dispatcher.CheckRoute(env.registry, w.registry, route, request).Ok? {
      ProcessSucceeds(env, w, route, request);
    }
  }

  /** A routed call and what follows it change balances by the second event alone. */
  lemma RoutedBalances(log: seq<Event>, routed: Event, last: Event)
    requires routed.Routed?
    ensures forall l :: Balance(log + [routed] + [last], l) == Balance(log, l) + Change(last, l)
  {
    hide Balance;
    forall l ensures Balance(log + [routed] + [last], l) == Balance(log, l) + Change(last, l) {
      BalanceAppend(log + [routed], [last], l);
      BalanceAppend(log, [routed], l);
      BalanceOne(routed, l);
      BalanceOne(last, l);
    }
  }

  /** A routed request changes its own position by the requested amount, reports it, and touches nothing else. */
  lemma RoutedRefinesLedger(env: Env, txs: seq<Tx>, route: Dispatcher.Route, request: Request, foreign: Option<Foreign>)
    requires route.program.key == env.template.id
    requires Apply(env, Run(env, txs), Routing(route, request, foreign)).Some?
    ensures var w := Run(env, txs);
            var w' := Apply(env, w, Routing(route, request, foreign)).value;
            var k := route.position.key;
            && w'.registry == w.registry && w'.adapter.configs == w.adapter.configs
            && k in w.adapter.positions && k in w'.adapter.positions
            && w'.adapter.positions == w.adapter.positions[k := w'.adapter.positions[k]]
            && w'.adapter.positions[k].depositedAmount == Balance(w'.log, k) == Balance(w.log, k) + Delta(request)
            && (forall l | l != k :: Balance(w'.log, l) == Balance(w.log, l))
            && w'.log == w.log + [RoutedEvent(route, request)]
                         + if request.CurrentValue? then [Queried(route.user.key, route.entry, Balance(w.log, k))]
                           else [Moved(k, route.user.key, request)]
  {
    hide Run, Template.Process, Route, Dispatcher.CpiFor, Decode, Balance, OwnMoves, Find, Template.Homed;
    var (w, k) := (Run(env, txs), route.position.key);
    var w' := Apply(env, w, Routing(route, request, foreign)).value;
    LedgerHolds(env, txs);
    RouteToTemplate(env, w, route, request, foreign);
    ProcessRouted(env.template, w.adapter, route, request);
    ProcessFacts(env.template, w.adapter, Dispatcher.CpiFor(route, request));
    var last := if request.CurrentValue? then Queried(route.user.key, route.entry, w.adapter.positions[k].lastValue)
                else Moved(k, route.user.key, request);
    assert w'.log == w.log + [RoutedEvent(route, request)] + [last];
    RoutedBalances(w.log, RoutedEvent(route, request), last);
  }
}
