/** The dispatcher: which registry entries it routes to, and the exact instruction it sends on. */
module Dispatcher {
  import opened Wrappers
  import opened MachineInts
  import opened Bytes
  import opened Pda
  import opened Registry
  import opened Interface

  datatype DispatcherError =
    | AdapterNotApproved
    | AdapterPaused
    | AdapterDeprecated
    | InvalidAdapterProgram
    | InvalidMint
    | InvalidAmount
    | InvalidRegistryEntry
    | CpiFailed
    // Failures of the account loading in front of the program, and of the address search inside it.
    | AccountNotInitialized
    | AccountNotSigner
    | ConstraintMut
    | NoUsableBump

  /** The accounts handed to the dispatcher, with the privileges the transaction gives them. */
  datatype Route = Route(
    entry: Pubkey,
    program: Meta,
    config: Meta,
    mint: Meta,
    position: Meta,
    user: Meta,
    remaining: seq<Meta>
  )

  /** What an invocation leaves behind: all that its program may have changed, and the return data with its setter. */
  datatype Reply<+W> = Reply(world: W, returned: Option<(Pubkey, seq<u8>)>)

  type Invoke<!W> = (W, Cpi, seq<Meta>) -> Option<Reply<W>>

  function CheckEntry(d: Deployment, key: Pubkey, entry: AdapterEntry, program: Pubkey, mint: Pubkey)
    : Result<(), DispatcherError>
  {
    match Find(d.derive, d.id, EntrySeeds(AdapterOf(entry)))
    case None => Err(DispatcherError.NoUsableBump)
    case Some((expected, bump)) =>
      if key != expected then Err(InvalidRegistryEntry)
      else if entry.bump != bump then Err(InvalidRegistryEntry)
      else if entry.status.Pending? then Err(AdapterNotApproved)
      else if entry.status.Paused? then Err(AdapterPaused)
      else if entry.status.Deprecated? then Err(AdapterDeprecated)
      else if program != entry.programId then Err(InvalidAdapterProgram)
      else if mint != entry.mint then Err(InvalidMint)
      else Ok(())
  }

  /** The dispatcher's own account constraints: a signing user, and what a move must be able to write. */
  function CheckPassed(registry: State, route: Route, request: Request): Result<(), DispatcherError> {
    if route.entry !in registry.entries then Err(DispatcherError.AccountNotInitialized)
    else if !route.user.isSigner then Err(AccountNotSigner)
    else if !request.CurrentValue? && !route.position.isWritable then Err(ConstraintMut)
    else if request.Deposit? && !route.user.isWritable then Err(ConstraintMut)
    else Ok(())
  }

  function CheckRoute(d: Deployment, registry: State, route: Route, request: Request): Result<(), DispatcherError> {
    var _ :- CheckPassed(registry, route, request);
    if !request.CurrentValue? && request.amount == 0 then Err(InvalidAmount)
    else CheckEntry(d, route.entry, registry.entries[route.entry], route.program.key, route.mint.key)
  }

  function Prefix(route: Route, request: Request): seq<Meta> {
    [
      Meta(route.config.key, false, false),
      Meta(route.position.key, false, !request.CurrentValue?),
      Meta(route.user.key, true, false),
      Meta(route.mint.key, false, false)
    ]
  }

  function CpiFor(route: Route, request: Request): Cpi {
    Cpi(route.program.key, Prefix(route, request) + route.remaining, Encode(request))
  }

  function InfosFor(route: Route): seq<Meta> {
    [route.config, route.position, route.user, route.mint] + route.remaining + [route.program]
  }

  /** The value an adapter set, accepted only from the adapter itself and only as eight bytes. */
  function ReadReturn(returned: Option<(Pubkey, seq<u8>)>, program: Pubkey): Result<u64, DispatcherError> {
    match returned
    case None => Err(CpiFailed)
    case Some((setter, data)) =>
      if setter != program || |data| != 8 then Err(CpiFailed)
      else
        Pow256Widths();
        Ok(LeValue(data))
  }

  lemma ReadReturnExact(returned: Option<(Pubkey, seq<u8>)>, program: Pubkey, value: u64)
    ensures ReadReturn(returned, program) == Ok(value) <==> returned == Some((program, LeBytes64(value)))
  {
    if ReadReturn(returned, program) == Ok(value) {
      LeValueInjective(returned.value.1, LeBytes64(value));
    }
  }

  /** One routed request: the world its adapter leaves, and the value a query reports. */
  function Routed<W>(d: Deployment, registry: State, route: Route, request: Request, world: W, invoke: Invoke<W>)
    : Result<(W, Option<u64>), DispatcherError>
  {
    var _ :- CheckRoute(d, registry, route, request);
    var reply :- invoke(world, CpiFor(route, request), InfosFor(route)).OkOr(CpiFailed);
    if request.CurrentValue? then
      var value :- ReadReturn(reply.returned, route.program.key);
      Ok((reply.world, Some(value)))
    else Ok((reply.world, None))
  }

  method AppendRemainingAccounts(cpi: Cpi, infos: seq<Meta>, remaining: seq<Meta>) returns (c: Cpi, i: seq<Meta>)
    ensures c == cpi.(accounts := cpi.accounts + remaining)
    ensures i == infos + remaining
  {
    c, i := cpi, infos;
    for n := 0 to |remaining|
      invariant c == cpi.(accounts := cpi.accounts + remaining[..n])
      invariant i == infos + remaining[..n]
    {
      var account := remaining[n];
      var meta := if account.isWritable then Meta(account.key, account.isSigner, true)
                  else Meta(account.key, account.isSigner, false);
      c := c.(accounts := c.accounts + [meta]);
      i := i + [account];
      assert remaining[..n + 1] == remaining[..n] + [account];
    }
    assert remaining[..|remaining|] == remaining;
  }

  method AmountIxData(discriminator: seq<u8>, amount: u64) returns (data: seq<u8>)
    ensures data == discriminator + LeBytes64(amount)
  {
    data := [];
    data := data + discriminator;
    data := data + LeBytes64(amount);
  }

  method RouteDeposit<W>(d: Deployment, registry: State, route: Route, amount: u64, world: W, invoke: Invoke<W>)
    returns (r: Result<W, DispatcherError>)
    ensures r == (var done :- Routed(d, registry, route, Deposit(amount), world, invoke); Ok(done.0))
  {
    hide CheckEntry;
    var _ :- CheckPassed(registry, route, Deposit(amount));
    if amount == 0 {
      return Err(InvalidAmount);
    }
    var _ :- CheckEntry(d, route.entry, registry.entries[route.entry], route.program.key, route.mint.key);
    var data := AmountIxData(DEPOSIT_IX_DISCRIMINATOR, amount);
    var cpi := Cpi(route.program.key, [Meta(route.config.key, false, false), Meta(route.position.key, false, true),
                                       Meta(route.user.key, true, false), Meta(route.mint.key, false, false)], data);
    var infos := [route.config, route.position, route.user, route.mint];
    cpi, infos := AppendRemainingAccounts(cpi, infos, route.remaining);
    infos := infos + [route.program];
    var reply :- invoke(world, cpi, infos).OkOr(CpiFailed);
    return Ok(reply.world);
  }

  method RouteWithdraw<W>(d: Deployment, registry: State, route: Route, amount: u64, world: W, invoke: Invoke<W>)
    returns (r: Result<W, DispatcherError>)
    ensures r == (var done :- Routed(d, registry, route, Withdraw(amount), world, invoke); Ok(done.0))
  {
    hide CheckEntry;
    var _ :- CheckPassed(registry, route, Withdraw(amount));
    if amount == 0 {
      return Err(InvalidAmount);
    }
    var _ :- CheckEntry(d, route.entry, registry.entries[route.entry], route.program.key, route.mint.key);
    var data := AmountIxData(WITHDRAW_IX_DISCRIMINATOR, amount);
    var cpi := Cpi(route.program.key, [Meta(route.config.key, false, false), Meta(route.position.key, false, true),
                                       Meta(route.user.key, true, false), Meta(route.mint.key, false, false)], data);
    var infos := [route.config, route.position, route.user, route.mint];
    cpi, infos := AppendRemainingAccounts(cpi, infos, route.remaining);
    infos := infos + [route.program];
    var reply :- invoke(world, cpi, infos).OkOr(CpiFailed);
    return Ok(reply.world);
  }

  method RouteCurrentValue<W>(d: Deployment, registry: State, route: Route, world: W, invoke: Invoke<W>)
    returns (r: Result<(W, u64), DispatcherError>)
    ensures r == (var done :- Routed(d, registry, route, CurrentValue, world, invoke); Ok((done.0, done.1.value)))
  {
    hide CheckEntry;
    var _ :- CheckPassed(registry, route, CurrentValue);
    var _ :- CheckEntry(d, route.entry, registry.entries[route.entry], route.program.key, route.mint.key);
    var cpi := Cpi(route.program.key, [Meta(route.config.key, false, false), Meta(route.position.key, false, false),
                                       Meta(route.user.key, true, false), Meta(route.mint.key, false, false)],
                   CURRENT_VALUE_IX_DISCRIMINATOR);
    var infos := [route.config, route.position, route.user, route.mint];
    cpi, infos := AppendRemainingAccounts(cpi, infos, route.remaining);
    infos := infos + [route.program];
    var reply :- invoke(world, cpi, infos).OkOr(CpiFailed);
    var value :- ReadReturn(reply.returned, route.program.key);
    return Ok((reply.world, value));
  }

  /** The adapter sees four fixed accounts, then the caller's own in order, each with the caller's flags. */
  lemma AccountsForwarded(route: Route, request: Request)
    ensures var accounts := CpiFor(route, request).accounts;
            && |accounts| == 4 + |route.remaining|
            && accounts[..4] == Prefix(route, request)
            && forall i | 0 <= i < |route.remaining| :: accounts[4 + i] == route.remaining[i]
  {}

  /** The four fixed accounts outright: only the user signs, and only the position may be written, by a move. */
  lemma FixedAccounts(route: Route, request: Request)
    ensures var accounts := CpiFor(route, request).accounts;
            && 4 <= |accounts|
            && accounts[0].key == route.config.key && accounts[1].key == route.position.key
            && accounts[2].key == route.user.key && accounts[3].key == route.mint.key
            && (forall i | 0 <= i < 4 :: accounts[i].isSigner <==> i == 2)
            && (forall i | 0 <= i < 4 :: accounts[i].isWritable <==> i == 1 && !request.CurrentValue?)
            && accounts[4..] == route.remaining
    ensures CpiFor(route, request).programId == route.program.key
  {
    hide Encode;
  }

  /** The accounts passed along: the four fixed ones in the same order, the remaining ones, and the program last. */
  lemma PassedAccounts(route: Route)
    ensures var infos := InfosFor(route);
            && |infos| == 5 + |route.remaining|
            && infos[0] == route.config && infos[1] == route.position && infos[2] == route.user
            && infos[3] == route.mint && infos[|infos| - 1] == route.program
            && infos[4..|infos| - 1] == route.remaining
  {}

  /** Everything that can become of a route: refused before the adapter runs, failed in it, or answered. */
  lemma RoutedOutcome<W>(d: Deployment, registry: State, route: Route, request: Request, world: W, invoke: Invoke<W>)
    ensures var r := Routed(d, registry, route, request, world, invoke);
            var reply := invoke(world, CpiFor(route, request), InfosFor(route));
            var checked := CheckRoute(d, registry, route, request);
            && (checked.Err? ==> r == Err(checked.error))
            && (checked.Ok? && reply.None? ==> r == Err(CpiFailed))
            && (checked.Ok? && reply.Some? && !request.CurrentValue? ==> r == Ok((reply.value.world, None)))
            && (checked.Ok? && reply.Some? && request.CurrentValue? ==>
                  && (r.Err? ==> r == Err(CpiFailed))
                  && forall value: u64 :: r == Ok((reply.value.world, Some(value))) <==>
                       reply.value.returned == Some((route.program.key, LeBytes64(value))))
  {
    hide CheckRoute, CpiFor, InfosFor, LeBytes64, LeValue;
    var reply := invoke(world, CpiFor(route, request), InfosFor(route));
    if reply.Some? {
      forall value: u64
        ensures ReadReturn(reply.value.returned, route.program.key) == Ok(value) <==>
                reply.value.returned == Some((route.program.key, LeBytes64(value)))
      {
        ReadReturnExact(reply.value.returned, route.program.key, value);
      }
    }
  }

  /** Which of the dispatcher's own constraints is broken first. */
  lemma PassedRefusals(registry: State, route: Route, request: Request)
    ensures var r := CheckPassed(registry, route, request);
            var moves := !request.CurrentValue?;
            && (r == Err(DispatcherError.AccountNotInitialized) <==> route.entry !in registry.entries)
            && (r == Err(AccountNotSigner) <==> route.entry in registry.entries && !route.user.isSigner)
            && (r == Err(ConstraintMut) <==>
                  && route.entry in registry.entries && route.user.isSigner && moves
                  && (!route.position.isWritable || (request.Deposit? && !route.user.isWritable)))
            && (r.Err? ==> r.error in {DispatcherError.AccountNotInitialized, AccountNotSigner, ConstraintMut})
  {}

  /** An entry's refusals, reachable or not: where it lies, then its status, then program and mint. */
  lemma EntryRefusals(d: Deployment, key: Pubkey, entry: AdapterEntry, program: Pubkey, mint: Pubkey)
    ensures var r := CheckEntry(d, key, entry, program, mint);
            var found := Find(d.derive, d.id, EntrySeeds(AdapterOf(entry)));
            var lies := found == Some((key, entry.bump));
            && (r == Err(DispatcherError.NoUsableBump) <==> found.None?)
            && (r == Err(InvalidRegistryEntry) <==> found.Some? && !lies)
            && (r == Err(AdapterNotApproved) <==> lies && entry.status == Pending)
            && (r == Err(AdapterPaused) <==> lies && entry.status == Paused)
            && (r == Err(AdapterDeprecated) <==> lies && entry.status == Deprecated)
            && (r == Err(InvalidAdapterProgram) <==> lies && entry.status == Approved && program != entry.programId)
            && (r == Err(InvalidMint) <==>
                  lies && entry.status == Approved && program == entry.programId && mint != entry.mint)
            && (r.Ok? <==> lies && entry.status == Approved && program == entry.programId && mint == entry.mint)
  {
    hide Find, EntrySeeds;
  }

  /** A route's refusals in order: the accounts, a move of nothing, then the entry. */
  lemma RouteRefusals(d: Deployment, registry: State, route: Route, request: Request)
    ensures var (r, passed) := (CheckRoute(d, registry, route, request), CheckPassed(registry, route, request));
            && (passed.Err? ==> r == Err(passed.error))
            && (passed.Ok? ==> (r == Err(InvalidAmount) <==> !request.CurrentValue? && request.amount == 0))
            && (passed.Ok? && r != Err(InvalidAmount) ==>
                  && route.entry in registry.entries
                  && r == CheckEntry(d, route.entry, registry.entries[route.entry], route.program.key, route.mint.key))
  {
    hide Find, EntrySeeds;
  }

  predicate Granted(meta: Meta, infos: seq<Meta>) {
    exists i :: 0 <= i < |infos| && infos[i].key == meta.key
                && (meta.isSigner ==> infos[i].isSigner) && (meta.isWritable ==> infos[i].isWritable)
  }

  /** A routed instruction never asks for a signature or a write the transaction did not grant. */
  lemma NoEscalation(d: Deployment, registry: State, route: Route, request: Request)
    requires CheckRoute(d, registry, route, request).Ok?
    ensures forall meta | meta in CpiFor(route, request).accounts :: Granted(meta, InfosFor(route))
    ensures exists info :: info in InfosFor(route) && info.key == CpiFor(route, request).programId
  {
    hide CheckEntry, Encode;
    var (accounts, infos) := (CpiFor(route, request).accounts, InfosFor(route));
    forall meta | meta in accounts ensures Granted(meta, infos) {
      var i :| 0 <= i < |accounts| && accounts[i] == meta;
      assert infos[i].key == meta.key;
    }
    assert infos[|infos| - 1] == route.program;
  }

  /** For a reachable entry only its status, program and mint decide; its address is always accepted. */
  lemma {:induction false} ReachableEntryDecision(d: Deployment, calls: seq<Call>, key: Pubkey, program: Pubkey,
                                                  mint: Pubkey)
    requires key in Run(d, EMPTY, calls).entries
    ensures var entry := Run(d, EMPTY, calls).entries[key];
            var r := CheckEntry(d, key, entry, program, mint);
            && (r.Ok? <==> entry.status.Approved? && program == entry.programId && mint == entry.mint)
            && r != Err(InvalidRegistryEntry) && r != Err(DispatcherError.NoUsableBump)
            && (r == Err(AdapterNotApproved) <==> entry.status.Pending?)
            && (r == Err(AdapterPaused) <==> entry.status.Paused?)
            && (r == Err(AdapterDeprecated) <==> entry.status.Deprecated?)
            && (r == Err(InvalidAdapterProgram) <==> entry.status.Approved? && program != entry.programId)
  {
    hide Find, EntrySeeds, ConfigSeeds, CheckInputs;
    ReachableSound(d, calls);
    assert EntrySound(d, key, Run(d, EMPTY, calls).entries[key]);
  }
}
