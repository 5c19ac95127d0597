/** When routed requests go through, in terms of the log and the ledger alone. */
module Availability {
  import opened Wrappers
  import opened MachineInts
  import opened Bytes
  import opened Pda
  import opened Interface
  import opened Ledger
  import opened GovernanceLog

  /** The log shows an entry open for the program and mint a route names. */
  predicate OpenFor(log: seq<Event>, route: Dispatcher.Route) {
    && Open(log, route.entry)
    && Proposal(log, route.entry).value.programId == route.program.key
    && Proposal(log, route.entry).value.mint == route.mint.key
  }

  /** The user signs, what a request must write is writable, and a move moves something. */
  predicate WellFormed(route: Dispatcher.Route, request: Request) {
    && route.user.isSigner
    && (!request.CurrentValue? ==> route.position.isWritable && request.amount != 0)
    && (request.Deposit? ==> route.user.isWritable)
  }

  /** In any run the dispatcher admits exactly the well-formed requests to entries the log shows open. */
  lemma AdmittedByLog(env: Env, txs: seq<Tx>, route: Dispatcher.Route, request: Request)
    ensures var w := Run(env, txs);
            Dispatcher.CheckRoute(env.registry, w.registry, route, request).Ok? <==>
            OpenFor(w.log, route) && WellFormed(route, request)
  {
    hide Run, Open, Proposal, Dispatcher.CheckEntry;
    RunLogDecides(env, txs, route.entry, route.program.key, route.mint.key);
  }

  /** A request routed to the reference adapter succeeds exactly when log, accounts and balance allow it. */
  lemma RoutedSucceedsByLog(env: Env, txs: seq<Tx>, route: Dispatcher.Route, request: Request,
                            foreign: Option<Foreign>)
    requires route.program.key == env.template.id
    ensures var w := Run(env, txs);
            Apply(env, w, Routing(route, request, foreign)).Some? <==>
              && OpenFor(w.log, route) && WellFormed(route, request)
              && Addressed(env, w.adapter, route) && Covered(w.log, route.position.key, request)
  {
    hide Run, Apply, OpenFor, WellFormed, Addressed, Covered, Dispatcher.CheckRoute;
    RoutedSucceeds(env, txs, route, request, foreign);
    AdmittedByLog(env, txs, route, request);
  }

  /** Every position of every run lies at the address found for one configuration and its owner. */
  lemma PositionsHomed(env: Env, txs: seq<Tx>, k: Pubkey) returns (config: Pubkey)
    requires k in Run(env, txs).adapter.positions
    ensures Template.Homed(env.template, Run(env, txs).adapter, k, config)
    ensures var s := Run(env, txs).adapter;
            Template.PositionAddress(env.template, config, s.positions[k]) == Some(k)
  {
    hide Run, Find, Template.PositionSeeds;
    LedgerHolds(env, txs);
    var s := Run(env, txs).adapter;
    config :| Template.Homed(env.template, s, k, config);
    FindCreates(env.template.derive, env.template.id, Template.PositionSeeds(config, s.positions[k].owner));
  }

  /** The accounts of a position's owner: its home configuration, that configuration's mint, and the position. */
  predicate OwnAccounts(env: Env, s: Template.State, route: Dispatcher.Route) {
    && route.program.key == env.template.id
    && Template.Homed(env.template, s, route.position.key, route.config.key)
    && route.mint.key == s.configs[route.config.key].supportedMint
    && route.user.key == s.positions[route.position.key].owner
  }

  lemma OwnAccountsAddressed(env: Env, s: Template.State, route: Dispatcher.Route)
    requires OwnAccounts(env, s, route)
    ensures Addressed(env, s, route)
  {
    hide Find, Template.PositionSeeds;
    FindCreates(env.template.derive, env.template.id,
                Template.PositionSeeds(route.config.key, s.positions[route.position.key].owner));
  }

  /**
   While the log shows the reference adapter's entry open, an owner can withdraw any amount up to the
   balance and nothing above it, however the other entries were governed and whatever other adapters did.
   */
  lemma OwnerCanWithdraw(env: Env, txs: seq<Tx>, route: Dispatcher.Route, amount: u64, foreign: Option<Foreign>)
    requires OwnAccounts(env, Run(env, txs).adapter, route) && OpenFor(Run(env, txs).log, route)
    requires route.user.isSigner && route.position.isWritable
    ensures var w := Run(env, txs);
            Apply(env, w, Routing(route, Withdraw(amount), foreign)).Some? <==>
            0 < amount <= Balance(w.log, route.position.key)
  {
    hide Run, Apply, OpenFor, Addressed, Template.Homed, Balance;
    RoutedSucceedsByLog(env, txs, route, Withdraw(amount), foreign);
    OwnAccountsAddressed(env, Run(env, txs).adapter, route);
  }
}
