# solYield in Dafny

solYield is a set of Solana programs: a registry of yield adapters kept by a governance authority, a
dispatcher that routes deposits, withdrawals and value queries to approved adapters, a reference adapter,
and five adapters that turn protocol shares into USDC. This project models the programs and proves what
they keep over every input and every run.

## How it is built

- **Arithmetic.** `MachineInts` has Rust's `u8` to `u128` as bounded naturals with their checked operations;
  `CheckedRatio` has the checked multiply-then-divide all adapters share, with its exact failure condition;
  `Arithmetic` and `Solvency` hold the nonlinear facts and the sums over any number of holders.
  `KaminoRate`, `JupiterRate`, `DriftRate` and `FixedPoint` (MarginFi) are the conversions themselves.
- **Bytes.** `Bytes` reads and writes little-endian fields at offsets. `JupiterPool`, `BalanceScan`,
  `FeedRing` and the Kamino reserve and Drift stake readers are paired with encoders that serve as their
  specifications.
- **Positions.** `KaminoUsdc`, `MarginfiUsdc`, `JupiterLp` and `DriftInsuranceFund` each have a class
  `Position` whose methods update the stored counters in place. A call into a protocol is a function from
  the instruction data to the accounts left behind, or a failure; it may leave anything behind. A ghost
  history and the accounts seen last tie the stored numbers to what happened, and each adapter's `Reports`
  says which numbers the accounts stand for. `KaminoAdmission`, `MarginfiAdmission`, `JupiterAdmission` and
  `DriftAdmission` list the demands behind every error and prove that a request is admitted exactly when all
  are met. `NetDeposits` says what the saturating deposit counter of the Kamino, MarginFi and Jupiter
  adapters amounts to.
- **Custody.** `MapleCustody` is a transition system over all token accounts and all positions, with
  ordinary token holders as further actors; `MapleSyrup` is the adapter's class over the same state, and
  `MapleAccess` says when its moves succeed.
- **Governance.** `Registry` is the program as a class over its accounts with a step function beside it;
  `RegistryRuns` proves what every run keeps, and `RegistryOutcomes` what each call stores or refuses.
  `Dispatcher` decides and builds instructions, `Interface` is the instruction format it shares with
  adapters, and `Template` is the reference adapter, with its stored fields and refusals in
  `TemplateOutcomes`.
- **Whole runs.** `Ledger` runs registry, dispatcher and reference adapter together and proves that the
  adapter's counters are a ledger; another adapter answers each routed call as it likes, and may invoke the
  registry and the reference adapter in turn. `GovernanceLog` proves what the log of any run shows, and
  `Availability` when routed requests go through. A routed call is logged where the dispatcher admits it;
  the source emits its event at the end of the instruction, after whatever the adapter did.

A failed instruction returns an error and leaves all state unchanged, as a Solana transaction does. Address
derivation is a parameter: any function from a program and seed bytes to an address or nothing. Nothing is
assumed about it; in particular it may map different seeds to one address, so the theorems about addresses
rest on the search for the canonical bump and on the seed bytes, which are proved injective. `MapleCustody`
assumes in addition that no transaction is signed by a position address.

## Findings

Where a natural statement is false of the code, the exact condition is proved instead:

- MarginFi's split product is not the floor of the product: it is one less exactly when a fractional carry is
  dropped (`FixedPoint.DroppedCarry`), as for the square of a number just above 1.4 (`FixedPoint.CarryDropped`).
- Kamino's one-for-one fallback is not solvent when the reserve's supply is zero while collateral exists
  (`KaminoRate.SolventExactly`, `KaminoRate.EmptyReserveOwes`).
- The rounding-up conversions of Kamino and Jupiter can refuse a result that fits, by overflowing their
  rounding term, but not below a supply of 2^65 (`KaminoRate.BurnOutcome`, `KaminoRate.SpuriousBurnFailure`,
  `JupiterRate.BurnOutcome`, `JupiterRate.SpuriousBurnFailure`).
- At a zero rate Jupiter quotes one LP token per unit and values it at nothing, so the upper quote bound and
  the withdrawal buffer fail for every nonzero amount (`JupiterRate.QuoteSandwich`,
  `JupiterRate.BurnKeepsBuffer`, `JupiterRate.ZeroRateDisagrees`).
- The value Kamino reports is the most that can be withdrawn (`KaminoRate.Withdrawable`). The value Jupiter
  reports can be withdrawn only when the tokens of the one percent buffer are not worth a unit, so never when
  a token is worth at least one unit (`JupiterRate.AffordableExactly`, `JupiterRate.ReportedValueAffordable`,
  `JupiterRate.ParValueRefused`).
- Jupiter's deposit guard protects 95% of a deposit only up to two tokens; it may ask for none at all
  (`JupiterRate.GuardKeepsValue`, `JupiterRate.GuardIsTight`).
- While the price feed has no usable answer nothing can leave a Maple vault
  (`MapleAccess.UnusableFeedLocksVault`, `MapleAccess.WithdrawSucceeds`).
- The price feed reader refuses a valid feed when cursor plus length reaches 2^32, which needs a ring far above
  the largest account (`FeedRing.LastAnswerRead`, `FeedRing.RingSumOverflows`,
  `FeedRing.NoOverflowInRealAccounts`).
- With 20 decimals or more, and only then, Maple can refuse a value that fits (`FeedRing.ValueOutcome`,
  `FeedRing.SpuriousValueFailure`).
- Drift withdrawals never lower the deposit counter, a second request replaces the pending amount of the first,
  and a deposit clears it, although the repository's interface document asks for pending withdrawals to be
  recorded. The pending amount is complete exactly while no request came before the last operation
  (`DriftInsuranceFund.PendingExactly`), the counter is right exactly while there was no request
  (`DriftInsuranceFund.TotalExactly`), and `DriftInsuranceFund.CountersExactly` says so of every position;
  `DriftInsuranceFund.LostRequests` has histories that fail, and `DriftLostRequest.LoseRequest` a position that does.
- The same document lists event fields that differ from the code's; the log in `Ledger` follows the code.

## Model

| member | source | states |
|---|---|---|
| `Registry.Program.InitializeRegistry` | programs/registry/src/lib.rs:14-27 | in-place method equal to the step function on every input: the signer becomes the authority at the one canonical configuration address; a second initialization fails; failures change nothing; the invariant holds afterwards |
| `Registry.Program.ProposeAdapter` | programs/registry/src/lib.rs:29-70 | in-place method equal to the step function, whose stored entry `RegistryOutcomes.ProposalStores` gives field by field; errors in the source's order, rollback when the counter would overflow |
| `Registry.Program.ApproveAdapter` | programs/registry/src/lib.rs:72-93 | only Pending to Approved, only under the stored authority; otherwise nothing changes |
| `Registry.Program.PauseAdapter` | programs/registry/src/lib.rs:95-116 | only Approved to Paused |
| `Registry.Program.UnpauseAdapter` | programs/registry/src/lib.rs:118-139 | only Paused to Approved |
| `Registry.Program.DeprecateAdapter` | programs/registry/src/lib.rs:141-162 | any status but Deprecated to Deprecated |
| `Registry.Program.UpdateAdapterMetadata` | programs/registry/src/lib.rs:164-188 | replaces the metadata in any status and keeps the status; invalid metadata is refused |
| `Registry.Program.TransferGovernance` | programs/registry/src/lib.rs:190-211 | the old authority hands over to a key that is not the default key |
| `RegistryOutcomes.ProposalStores` | programs/registry/src/lib.rs:29-70 | after a successful proposal the entry has the proposed adapter, name and metadata, status Pending, both slots now and the found bump; the counter is one more, and nothing else changed |
| `RegistryOutcomes.ActionStores` | programs/registry/src/lib.rs:72-188 | a successful action changes only status, metadata and slot of its own entry, the status along the allowed edges and the metadata only when asked to |
| `RegistryOutcomes.ConfigStores` | programs/registry/src/lib.rs:14-211 | initialization makes the signer the authority of an empty registry; a transfer changes only the authority |
| `RegistryOutcomes.EntriesRemember` | programs/registry/src/lib.rs:29-188 | over every run an entry holds name and creation slot of its proposal, the metadata last successfully proposed or set, and the slot of the last call that governed it |
| `RegistryOutcomes.InputsOutcome` | programs/registry/src/lib.rs:446-489 | exactly which proposals are accepted (keys not the default, texts with more than white space in at most 64 and 256 bytes), and the order of the refusals |
| `RegistryOutcomes.NameOutcome` | programs/registry/src/lib.rs:468-479 | the name check and its two errors |
| `RegistryOutcomes.UriOutcome` | programs/registry/src/lib.rs:481-489 | the metadata check and its two errors |
| `RegistryOutcomes.ProposeOutcome` | programs/registry/src/lib.rs:227-260 | the error of a proposal in any reachable registry |
| `RegistryOutcomes.GovernOutcome` | programs/registry/src/lib.rs:265-283 | the error of a governing call in any reachable registry |
| `RegistryOutcomes.TransferOutcome` | programs/registry/src/lib.rs:190-211 | the error of a transfer in any reachable registry |
| `RegistryOutcomes.InitializeOutcome` | programs/registry/src/lib.rs:14-27 | a reachable registry is initialized exactly once, at the canonical address |
| `RegistryOutcomes.LoadRefusals` | programs/registry/src/lib.rs:237-294 | in any state loading refuses what is absent, does not lie at its own seeds, or is not the signer's |
| `RegistryOutcomes.EntrySeedsLayout` | programs/registry/src/lib.rs:248-253 | where program, mint and version sit in the seeds |
| `RegistryOutcomes.SerializedFields` | programs/registry/src/lib.rs:308-334 | every field of an entry reads back from its serialized form |
| `Registry.ReachableSound` | programs/registry/src/lib.rs:29-283 | every registry reachable by any calls, with any signers and accounts, has one canonical configuration counting its entries and every entry at the canonical address and bump of its own fields |
| `RegistryRuns.CountsEntries` | programs/registry/src/lib.rs:29-70 | the counter is the number of entries; the configuration is unique and canonical; each entry sits at the address found for its own fields |
| `RegistryRuns.EntrySeedsInjective` | programs/registry/src/lib.rs:237-254 | entry seeds are equal if and only if program, mint and version are |
| `RegistryRuns.SeedsWithBumpInjective` | programs/registry/src/lib.rs:237-283 | seeds with a bump appended still name adapter and bump, and never equal the configuration seeds |
| `RegistryRuns.OneEntryPerAdapter` | programs/registry/src/lib.rs:237-254 | a reachable registry never holds two entries for one (program, mint, version) |
| `RegistryRuns.StepKeepsEntries` | programs/registry/src/lib.rs:72-188 | a call never removes an entry or changes what it is for; statuses move only along the allowed edges; a changed entry means a governing call for it signed by the stored authority |
| `RegistryRuns.EntriesPermanent` | programs/registry/src/lib.rs:72-188 | over whole runs: entries stay, identity and creation slot never change, Deprecated is absorbing, Pending never comes back |
| `RegistryRuns.GovernSucceeds` | programs/registry/src/lib.rs:265-283 | exactly when a governing call succeeds; the stored seeds and bump never stand in the way of a reachable entry |
| `RegistryRuns.ProposeSucceeds` | programs/registry/src/lib.rs:227-260 | exactly when a proposal succeeds, and that an adapter already proposed is never proposed again |
| `RegistryRuns.CreatedBeforeUpdated` | programs/registry/src/lib.rs:41-53 | under a nondecreasing clock every entry has created slot at most updated slot at most now |
| `RegistryRuns.EntriesFit` | programs/registry/src/lib.rs:308-334 | a reachable entry, serialized, never exceeds the allocated length, whatever metadata updates it went through; its strings are nonempty and within their limits, its keys not the default key |
| `Text.TrimmedEmpty` | programs/registry/src/lib.rs:468-489 | the emptiness check rejects exactly the strings of Unicode white space |
| `Dispatcher.ReachableEntryDecision` | programs/dispatcher/src/lib.rs:276-329 | for every reachable entry the dispatcher accepts if and only if it is approved and program and mint match, with the right error otherwise, and never answers InvalidRegistryEntry |
| `Dispatcher.EntryRefusals` | programs/dispatcher/src/lib.rs:276-329 | for every entry, reachable or not, each error of the entry check exactly: address and bump, then status, then program, then mint |
| `Dispatcher.RouteRefusals` | programs/dispatcher/src/lib.rs:26-37 | a route is refused first for its accounts, then for moving nothing, then for its entry |
| `Dispatcher.PassedRefusals` | programs/dispatcher/src/lib.rs:178-222 | the dispatcher's own account constraints and their errors |
| `Dispatcher.RoutedOutcome` | programs/dispatcher/src/lib.rs:62-170 | everything that can become of a route: refused with the check's error, CpiFailed when the adapter fails or answers a query wrongly, otherwise the adapter's result |
| `Dispatcher.FixedAccounts` | programs/dispatcher/src/lib.rs:40-45 | the four accounts outright: configuration, position, user, mint; only the user signs, and only the position may be written, by a move |
| `Dispatcher.PassedAccounts` | programs/dispatcher/src/lib.rs:48-60 | the account list of the invocation: the same four, the remaining accounts in order, and the program last |
| `Dispatcher.RouteDeposit` | programs/dispatcher/src/lib.rs:26-73 | checks first, then one invocation of an instruction built by pushing: the four-account prefix, the remaining accounts in order with their flags, and the encoded amount; adapter failure becomes CpiFailed |
| `Dispatcher.RouteWithdraw` | programs/dispatcher/src/lib.rs:75-122 | the same for withdrawals |
| `Dispatcher.RouteCurrentValue` | programs/dispatcher/src/lib.rs:124-170 | the same for queries, with the read-only position and the decoded return value |
| `Dispatcher.AppendRemainingAccounts` | programs/dispatcher/src/lib.rs:347-361 | the loop appends every remaining account once, in order, with its own flags, to the instruction and to the account list |
| `Dispatcher.NoEscalation` | programs/dispatcher/src/lib.rs:37-60 | no forwarded account claims a signature or write privilege the transaction did not grant, and the invoked program is among the accounts passed |
| `Interface.DecodeEncode` | programs/dispatcher/src/lib.rs:331-336 | for every request the instruction bytes decode to exactly that request, so the three discriminators cannot be confused |
| `Interface.RequestBytes` | programs/dispatcher/src/lib.rs:331-336 | the instruction bytes outright: eight discriminator bytes, then the amount little-endian |
| `Dispatcher.ReadReturnExact` | programs/dispatcher/src/lib.rs:363-376 | a value is accepted if and only if the adapter itself returned exactly its eight little-endian bytes |
| `GovernanceLog.RunAccounted` | programs/dispatcher/src/lib.rs:26-170 | every run of governance, routed and direct calls, whatever other adapters answer and invoke in turn, leaves a legal log and a registry that says exactly what the log says |
| `GovernanceLog.RoutedOnlyWhileOpen` | programs/dispatcher/src/lib.rs:276-329 | each routed call has behind it exactly one proposal for its program and mint, then exactly one approval, both signed by the authority of that moment, as many unpauses as pauses and no deprecation |
| `GovernanceLog.GovernedByAuthority` | programs/registry/src/lib.rs:227-294 | each governance event of each run was signed by the authority in force just before it |
| `GovernanceLog.RunLogDecides` | programs/dispatcher/src/lib.rs:276-329 | conversely, the dispatcher serves an entry for a program and mint if and only if the log so far shows it proposed for them, approved once, unpaused as often as paused and not deprecated |
| `GovernanceLog.GovernedByLog` | programs/registry/src/lib.rs:72-188 | conversely, a governing call succeeds if and only if it comes from the authority in force and the log so far admits the action |
| `GovernanceLog.LegalHistory` | programs/dispatcher/src/lib.rs:276-329 | the same history derived from legality of a log alone, independent of the programs |
| `Template.Program.InitializeAdapter` | programs/adapters/adapter-template/src/lib.rs:13-33 | in-place method equal to the step function; the default mint is refused |
| `Template.Program.InitializePosition` | programs/adapters/adapter-template/src/lib.rs:35-44 | in-place method equal to the step function; a position starts at zero at its derived address |
| `Template.Program.Deposit` | programs/adapters/adapter-template/src/lib.rs:46-71 | in-place update of the three counters, all or nothing |
| `Template.Program.Withdraw` | programs/adapters/adapter-template/src/lib.rs:73-98 | in-place update of the three counters, refused beyond the balance |
| `Template.Program.CurrentValue` | programs/adapters/adapter-template/src/lib.rs:100-114 | returns the stored value as eight bytes and changes nothing |
| `TemplateOutcomes.AdapterStores` | programs/adapters/adapter-template/src/lib.rs:13-33 | a new configuration holds authority, mint, protocol program, version and found bump as given; nothing else changes |
| `TemplateOutcomes.PositionStores` | programs/adapters/adapter-template/src/lib.rs:35-44 | a new position is empty and its owner's, with the found bump; nothing else changes |
| `TemplateOutcomes.CreationOutcome` | programs/adapters/adapter-template/src/lib.rs:117-165 | exactly when configurations and positions are created, and the errors otherwise |
| `TemplateOutcomes.HandleOutcome` | programs/adapters/adapter-template/src/lib.rs:46-114 | a handler succeeds if and only if every demand its errors stand for is met, and each refusal names one that is not |
| `TemplateOutcomes.SeedsLayout` | programs/adapters/adapter-template/src/lib.rs:119-165 | where mint, version, configuration and owner sit in the seeds |
| `Ledger.LedgerHolds` | programs/adapters/adapter-template/src/lib.rs:46-114 | after any run of governance, routed and direct calls, including what other adapters invoke in turn, every position has deposited amount = shares = last value = logged deposits minus withdrawals, lies at the address of a configuration and its owner, and was moved only by its owner |
| `Ledger.Counters` | programs/adapters/adapter-template/src/lib.rs:242-266 | the same per position, with the balance never negative |
| `Ledger.RoutedRefinesLedger` | programs/dispatcher/src/lib.rs:26-170 | a successful routed request changes exactly one balance by the requested amount and logs exactly the routed call and that move, or for a query the ledger balance decoded from the return bytes; everything else is unchanged |
| `Availability.AdmittedByLog` | programs/dispatcher/src/lib.rs:276-329 | in every run the dispatcher admits exactly the well-formed requests to entries that the log shows open for their program and mint |
| `Availability.RoutedSucceedsByLog` | programs/dispatcher/src/lib.rs:26-122 | a request routed to the reference adapter succeeds if and only if the log shows the entry open, the request is well formed, the accounts are the position's own, and the ledger covers it |
| `Availability.PositionsHomed` | programs/adapters/adapter-template/src/lib.rs:35-44 | every position of every run lies at the address found for one configuration and its owner |
| `Availability.OwnerCanWithdraw` | programs/adapters/adapter-template/src/lib.rs:73-98 | while the entry is open an owner can withdraw an amount if and only if it is nonzero and at most the balance |
| `FixedPoint.MulOutcome` | programs/adapters/marginfi-usdc/src/lib.rs:827-849 | for all accepted raw inputs the split product is floor((l·r − lf·rf)/2^96) or an error, with an error exactly when that does not fit 64 bits |
| `FixedPoint.FloorExact` | programs/adapters/marginfi-usdc/src/lib.rs:822-825 | the whole part of a raw value, for every raw value, with an error exactly when it does not fit |
| `FixedPoint.CrossTermsFit` | programs/adapters/marginfi-usdc/src/lib.rs:827-849 | the cross and fraction terms never overflow 128 bits |
| `FixedPoint.DroppedCarry` | programs/adapters/marginfi-usdc/src/lib.rs:836-848 | against the true floor of l·r/2^96 the result is equal, or one less exactly when the fractional carry is dropped |
| `FixedPoint.CarryDropped` | programs/adapters/marginfi-usdc/src/lib.rs:836-848 | a number whose square comes out as 1 while its true floor is 2 |
| `FixedPoint.TruncatedMono` | programs/adapters/marginfi-usdc/src/lib.rs:827-849 | nondecreasing in each argument |
| `FixedPoint.HoldersFit` | programs/adapters/marginfi-usdc/src/lib.rs:766-781 | values reported to any holders sum to at most the true value of their summed shares |
| `BalanceScan.ReadAssetSharesForBank` | programs/adapters/marginfi-usdc/src/lib.rs:783-798 | the indexed loop with early return equals the scan specification |
| `BalanceScan.ScanOfLayout` | programs/adapters/marginfi-usdc/src/lib.rs:783-798 | on every encoded table the scan answers the first active slot for the bank, zero when there is none among sixteen, short data otherwise |
| `BalanceScan.EveryAccountHasLayout` | programs/adapters/marginfi-usdc/src/lib.rs:783-798 | every account with a full header is such a table, complete exactly from 1736 bytes on |
| `BalanceScan.NeverShort` | programs/adapters/marginfi-usdc/src/lib.rs:783-798 | 1736 bytes or more never give the short-data error |
| `BalanceScan.OrderIrrelevant` | programs/adapters/marginfi-usdc/src/lib.rs:783-798 | when at most one active slot names the bank, two accounts holding the same slots in any order give the same answer, whatever bytes surround the tables |
| `BalanceScan.OrderMatters` | programs/adapters/marginfi-usdc/src/lib.rs:783-798 | two complete encoded accounts with the same slots, two of them active for the bank, for which the scan answers differ by order |
| `MarginfiUsdc.Position.Deposit` | programs/adapters/marginfi-usdc/src/lib.rs:109-167 | exact outcome and new position for any protocol reply; the counter keeps the reflected walk of the history, and shares and value are the whole part and the truncated product that the accounts left behind report |
| `MarginfiUsdc.Position.Withdraw` | programs/adapters/marginfi-usdc/src/lib.rs:169-228 | the same, with a saturating counter and the health accounts required |
| `MarginfiUsdc.Position.CurrentValue` | programs/adapters/marginfi-usdc/src/lib.rs:230-252 | the product that account and bank report; with the protocol accounts unchanged since the last move exactly the stored value, whatever accounts are passed |
| `MarginfiUsdc.PositionValueExact` | programs/adapters/marginfi-usdc/src/lib.rs:766-781 | shares and value, or the first error, for any two accounts |
| `MarginfiUsdc.EncodedPositionValue` | programs/adapters/marginfi-usdc/src/lib.rs:766-781 | the same on an encoded balance table and a bank with its share value at byte 80 |
| `MarginfiUsdc.InstructionBytes` | programs/adapters/marginfi-usdc/src/lib.rs:733-748 | the deposit and withdraw instructions byte by byte |
| `MarginfiAdmission.Admission` | programs/adapters/marginfi-usdc/src/lib.rs:482-731 | a request is admitted if and only if every demand on accounts, bank, vault, token account and health accounts is met; each refusal's error names a demand that is not |
| `NetDeposits.ReflectedWalk` | programs/adapters/kamino-usdc/src/lib.rs:154-157 | after any run without overflow the tracked amount is the maximum over k of S_n − S_k for the signed running sum S |
| `NetDeposits.NetExactly` | programs/adapters/kamino-usdc/src/lib.rs:229 | it is at least the net sum, and equal to it if and only if no prefix sum was negative |
| `KaminoRate.TotalSupplyOutcome` | programs/adapters/kamino-usdc/src/lib.rs:823-841 | the supply is assets less fees, refused exactly when fees exceed assets |
| `KaminoRate.ValueOutcome` | programs/adapters/kamino-usdc/src/lib.rs:843-856 | for every reserve: one for one without a rate, otherwise the exact quotient, refused exactly when fees exceed assets or it does not fit |
| `KaminoRate.BurnOutcome` | programs/adapters/kamino-usdc/src/lib.rs:858-874 | for every reserve: the least collateral covering the amount, one for one without a rate, with the exact failure condition, which for a supply below 2^65 is only that the result does not fit |
| `KaminoRate.SpuriousBurnFailure` | programs/adapters/kamino-usdc/src/lib.rs:858-874 | at a supply of 2^65 a burn whose exact result fits is refused |
| `KaminoRate.Adjoint` | programs/adapters/kamino-usdc/src/lib.rs:843-874 | when both conversions succeed, value(c) >= a if and only if c >= burn(a) |
| `KaminoRate.LeastBurn` | programs/adapters/kamino-usdc/src/lib.rs:843-874 | a withdrawal burns the least collateral that covers the request, overshooting by at most floor((T−1)/M) |
| `KaminoRate.Withdrawable` | programs/adapters/kamino-usdc/src/lib.rs:843-874 | held collateral pays for an amount if and only if its reported value is at least that amount, apart from overflow of the rounding term, which needs a supply of 2^65 |
| `KaminoRate.SolventExactly` | programs/adapters/kamino-usdc/src/lib.rs:843-856 | any holders within the collateral supply are together owed at most the reserve supply, if and only if that supply is nonzero or they hold nothing |
| `KaminoRate.EmptyReserveOwes` | programs/adapters/kamino-usdc/src/lib.rs:846-848 | a reserve with supply zero and one collateral token, which is credited with one unit |
| `KaminoUsdc.ReserveRoundTrip` | programs/adapters/kamino-usdc/src/lib.rs:788-821 | for all field values, gap bytes and tails, reading an encoded reserve gives back every field; every shorter cut is refused |
| `KaminoUsdc.Position.Deposit` | programs/adapters/kamino-usdc/src/lib.rs:101-170 | exact outcome and new position for any protocol reply; shares are the collateral balance left behind and the stored value is what the reserve makes it worth |
| `KaminoUsdc.Position.Withdraw` | programs/adapters/kamino-usdc/src/lib.rs:172-242 | the same; the collateral sent is computed from the reserve before the call |
| `KaminoUsdc.Position.CurrentValue` | programs/adapters/kamino-usdc/src/lib.rs:244-264 | what the collateral balance is worth at the reserve; unchanged accounts give back the stored value |
| `KaminoUsdc.PositionValueExact` | programs/adapters/kamino-usdc/src/lib.rs:788-856 | balance and worth, or the first error, for any reserve and token account |
| `KaminoUsdc.EncodedPositionValue` | programs/adapters/kamino-usdc/src/lib.rs:788-856 | the same on an encoded reserve and token account: the portion of the supply, one for one without a rate, or an overflow |
| `KaminoUsdc.InstructionBytes` | programs/adapters/kamino-usdc/src/lib.rs:880-885 | the deposit and redeem instructions byte by byte |
| `KaminoAdmission.Admission` | programs/adapters/kamino-usdc/src/lib.rs:526-786 | a request is admitted if and only if every demand on reserve, market, vaults and token accounts is met; each refusal's error names a demand that is not |
| `JupiterRate.ValueOutcome` | programs/adapters/jupiter-lp/src/lib.rs:977-987 | LP value is the portion of the pool, refused exactly when it does not fit |
| `JupiterRate.QuoteOutcome` | programs/adapters/jupiter-lp/src/lib.rs:989-999 | for every pool: one for one without a rate, otherwise the exact quotient, refused exactly when it does not fit |
| `JupiterRate.BurnOutcome` | programs/adapters/jupiter-lp/src/lib.rs:1001-1014 | for every pool: the least LP amount worth the request, one for one without a rate, with the exact failure condition, which for a pool below 2^65 is only that the result does not fit |
| `JupiterRate.SpuriousBurnFailure` | programs/adapters/jupiter-lp/src/lib.rs:1001-1014 | at a pool of 2^65 a burn whose exact result is 2^63 is refused |
| `JupiterRate.ZeroRateDisagrees` | programs/adapters/jupiter-lp/src/lib.rs:977-1035 | without a rate one unit is quoted at one token, two are burned for it, and two are worth nothing |
| `JupiterRate.GuardOutcome` | programs/adapters/jupiter-lp/src/lib.rs:1016-1035 | the deposit guard never fails; the burn buffer fails exactly when the buffered amount does not fit |
| `JupiterRate.QuoteSandwich` | programs/adapters/jupiter-lp/src/lib.rs:977-999 | value(q) <= amount always, and amount <= value(q+1) if and only if the rate is nonzero or the amount is zero |
| `JupiterRate.BurnKeepsBuffer` | programs/adapters/jupiter-lp/src/lib.rs:210-211 | what a withdrawal burns is worth at least floor(amount·10100/10000), if and only if the rate is nonzero or the amount is zero |
| `JupiterRate.GuardKeepsValue` | programs/adapters/jupiter-lp/src/lib.rs:121-122 | two tokens above the minimum are worth at least floor(amount·9500/10000), if and only if there is a rate or the amount is at most one |
| `JupiterRate.GuardIsTight` | programs/adapters/jupiter-lp/src/lib.rs:121-122 | a deposit of 1999 at 1000 a token asks for no tokens at all, and one token more would not be worth 95% of it |
| `JupiterRate.BurnCoversQuote` | programs/adapters/jupiter-lp/src/lib.rs:989-1035 | withdrawing an amount burns at least the LP quoted for depositing it |
| `JupiterRate.AffordableExactly` | programs/adapters/jupiter-lp/src/lib.rs:1001-1035 | for all inputs, held tokens pay for a withdrawal if and only if the amount is at most the value of 100/101 of them, rounded down, and the rounding term does not overflow |
| `JupiterRate.ReportedValueAffordable` | programs/adapters/jupiter-lp/src/lib.rs:977-1035 | the reported value can itself be withdrawn if and only if the tokens of the buffer are not worth a unit of it and the rounding term does not overflow, and never when a token is worth at least one unit |
| `JupiterRate.ParValueRefused` | programs/adapters/jupiter-lp/src/lib.rs:977-1035 | at par the reported value of 100 tokens cannot be withdrawn |
| `JupiterRate.Solvent` | programs/adapters/jupiter-lp/src/lib.rs:977-987 | any holders within the LP supply are together owed at most the pool |
| `JupiterPool.ReadPoolAum` | programs/adapters/jupiter-lp/src/lib.rs:927-965 | the parser with its key loop equals the scan specification |
| `JupiterPool.PoolRoundTrip` | programs/adapters/jupiter-lp/src/lib.rs:927-965 | for every name, custody list, value and tail, parsing the encoding gives that value if the custody is listed, InvalidPool otherwise |
| `JupiterPool.CutPoolRefused` | programs/adapters/jupiter-lp/src/lib.rs:927-965 | every cut before the end of the value is refused, with the error of the field it falls in |
| `JupiterPool.AcceptedPoolDecodes` | programs/adapters/jupiter-lp/src/lib.rs:927-965 | whatever is accepted is an encoding that lists the custody and holds the answered value |
| `JupiterPool.PerpetualsOutcome` | programs/adapters/jupiter-lp/src/lib.rs:763-792 | the perpetuals check accepts an encoded account, whatever follows it, if and only if it lists the pool |
| `JupiterPool.ValidatePerpetuals` | programs/adapters/jupiter-lp/src/lib.rs:763-792 | the method with the key loop equals the check |
| `JupiterPool.CutPerpetualsRefused` | programs/adapters/jupiter-lp/src/lib.rs:763-792 | every cut of an encoded account is refused, with the error of the place it breaks off |
| `JupiterPool.AcceptedPerpetualsDecode` | programs/adapters/jupiter-lp/src/lib.rs:763-792 | whatever is accepted is an encoding that lists the pool |
| `JupiterLp.DepositOrderBounds` | programs/adapters/jupiter-lp/src/lib.rs:119-123 | the bytes sent hold the amount at 8 and the minimum at 16; the minimum read there is 95% of a quote worth no more than the deposit, and two tokens more are worth 95% of the deposit if and only if there is a rate or at most one unit is deposited |
| `JupiterLp.WithdrawOrderBounds` | programs/adapters/jupiter-lp/src/lib.rs:208-217 | the bytes sent hold the LP burned at 8 and the amount as minimum out at 16; the LP read there is at most the holding, and covers the buffered request at a real price |
| `JupiterLp.WithdrawOrderSucceeds` | programs/adapters/jupiter-lp/src/lib.rs:208-213 | exactly when a withdrawal reaches the protocol, in terms of amount, holding, pool and LP supply |
| `JupiterLp.Position.Deposit` | programs/adapters/jupiter-lp/src/lib.rs:108-195 | exact outcome, LP minted and new position for any protocol reply |
| `JupiterLp.Position.Withdraw` | programs/adapters/jupiter-lp/src/lib.rs:197-282 | exact outcome, LP burned and new position for any protocol reply |
| `JupiterLp.Position.CurrentValue` | programs/adapters/jupiter-lp/src/lib.rs:284-306 | exact outcome, errors included; unchanged accounts give back the stored value |
| `JupiterLp.PositionValueExact` | programs/adapters/jupiter-lp/src/lib.rs:967-987 | balance and portion of the pool, or the first error, for any three accounts |
| `JupiterLp.EncodedPositionValue` | programs/adapters/jupiter-lp/src/lib.rs:927-987 | the same on an encoded token account, pool and mint |
| `JupiterLp.AddLiquidityBytes` | programs/adapters/jupiter-lp/src/lib.rs:1037-1044 | the add-liquidity instruction byte by byte |
| `JupiterLp.RemoveLiquidityBytes` | programs/adapters/jupiter-lp/src/lib.rs:1046-1052 | the remove-liquidity instruction byte by byte |
| `JupiterAdmission.Admission` | programs/adapters/jupiter-lp/src/lib.rs:562-965 | a request is admitted if and only if every demand on programs, stored accounts, tokens, custody, perpetuals and pool is met; each refusal's error names a demand that is not, and what is admitted carries the pool's value |
| `DriftRate.AmountOutcome` | programs/adapters/drift-insurance-fund/src/lib.rs:790-800 | exact outcome of the share conversion, without spurious failure for totals below 2^64 |
| `DriftRate.ValueBounds` | programs/adapters/drift-insurance-fund/src/lib.rs:777-785 | value at most floor(shares·vault/total), and at most one short of it while the pending clamp does not bind |
| `DriftRate.ValueMono` | programs/adapters/drift-insurance-fund/src/lib.rs:777-785 | nondecreasing in the vault amount |
| `DriftRate.ValueFailure` | programs/adapters/drift-insurance-fund/src/lib.rs:777-785 | exactly when valuing fails, for every stake, total and vault |
| `DriftRate.ValueFailureWithinTotal` | programs/adapters/drift-insurance-fund/src/lib.rs:777-785 | for shares within the total only a request above the shares or an overflowing product fails; never when request <= shares < 2^64 |
| `DriftRate.Solvent` | programs/adapters/drift-insurance-fund/src/lib.rs:760-800 | any stakers within the total are together owed at most the vault, pending part included |
| `DriftInsuranceFund.StakeRoundTrip` | programs/adapters/drift-insurance-fund/src/lib.rs:769-773 | reading an encoded stake gives back shares, requested shares and requested value; every shorter cut is refused |
| `DriftInsuranceFund.EncodedPositionValue` | programs/adapters/drift-insurance-fund/src/lib.rs:760-788 | from encoded stake, market and vault accounts to shares and value or the error, for every stake, total and vault |
| `DriftInsuranceFund.Position.Deposit` | programs/adapters/drift-insurance-fund/src/lib.rs:119-192 | exact outcome and new position; clears the pending amount |
| `DriftInsuranceFund.Position.Withdraw` | programs/adapters/drift-insurance-fund/src/lib.rs:194-253 | exact outcome and new position; records the request as pending and leaves the deposit counter |
| `DriftInsuranceFund.PendingExactly` | programs/adapters/drift-insurance-fund/src/lib.rs:239-242 | the pending amount is everything requested if and only if nothing was requested before the last operation |
| `DriftInsuranceFund.TotalExactly` | programs/adapters/drift-insurance-fund/src/lib.rs:174-181 | the deposit counter is the net deposits if and only if nothing was ever requested |
| `DriftInsuranceFund.LostRequests` | programs/adapters/drift-insurance-fund/src/lib.rs:174-242 | histories where a second request or a deposit hides a first request and the counter stays too high |
| `DriftInsuranceFund.CountersExactly` | programs/adapters/drift-insurance-fund/src/lib.rs:119-253 | the same for any position: pending is complete if and only if no withdrawal came before the last operation, and the deposit counter exceeds the net deposits by everything ever requested |
| `DriftLostRequest.SecondRequestReplaces` | programs/adapters/drift-insurance-fund/src/lib.rs:194-253 | on any position, two withdrawals that get through leave only the second amount pending, less than was requested |
| `DriftLostRequest.LoseRequest` | programs/adapters/drift-insurance-fund/src/lib.rs:194-253 | such a position exists: requests of 5 and 3 on one position leave 3 pending |
| `DriftInsuranceFund.Position.CurrentValue` | programs/adapters/drift-insurance-fund/src/lib.rs:255-279 | unchanged accounts give back the stored value |
| `DriftInsuranceFund.PositionReports` | programs/adapters/drift-insurance-fund/src/lib.rs:760-788 | shares and value of a position are the stake's shares, and the active portion of the vault plus the pending one clamped to its request |
| `DriftInsuranceFund.PositionBytes` | programs/adapters/drift-insurance-fund/src/lib.rs:802-808 | the two instructions a position sends, byte by byte |
| `DriftInsuranceFund.SeedsDiffer` | programs/adapters/drift-insurance-fund/src/lib.rs:810-839 | seeds of stakes, markets and vaults name owner and market, and never coincide across kinds |
| `DriftAdmission.Admission` | programs/adapters/drift-insurance-fund/src/lib.rs:512-758 | a request is admitted if and only if every demand on stake, market, statistics, vaults and token account is met; each refusal's error names a demand that is not |
| `FeedRing.ReadsSelected` | programs/adapters/maple-syrup/src/lib.rs:600-630 | exact answer of the reader on every encoded feed, with any length and any cursor: the slot behind the cursor round the ring, errors included |
| `FeedRing.CutFeedOutcome` | programs/adapters/maple-syrup/src/lib.rs:600-630 | what reading a feed cut anywhere gives: invalid before 248 bytes or before the selected answer ends, the whole feed's result from there on |
| `FeedRing.LastAnswerRead` | programs/adapters/maple-syrup/src/lib.rs:600-630 | after any run of at least one write the reader returns the last answer written if it is positive, except exactly when cursor + length reaches 2^32 |
| `FeedRing.NoOverflowInRealAccounts` | programs/adapters/maple-syrup/src/lib.rs:618-622 | that exception cannot occur in an account of at most 10 MiB |
| `FeedRing.RingSumOverflows` | programs/adapters/maple-syrup/src/lib.rs:618-622 | a ring of just over 2^31 answers, cursor inside it, whose last answer is refused |
| `FeedRing.UntouchedRingRefused` | programs/adapters/maple-syrup/src/lib.rs:624-627 | a zeroed ring is refused, whatever its length and cursor |
| `FeedRing.ValueOutcome` | programs/adapters/maple-syrup/src/lib.rs:634-648 | exact failure condition of pricing; with at most 19 decimals only when the value does not fit |
| `FeedRing.FewerSharesPriced` | programs/adapters/maple-syrup/src/lib.rs:634-648 | whenever some shares can be priced so can fewer, at no higher value |
| `FeedRing.SpuriousValueFailure` | programs/adapters/maple-syrup/src/lib.rs:639-646 | for every number of decimals from 20 on, an encoded feed that refuses a value that fits |
| `MapleCustody.CustodyHolds` | programs/adapters/maple-syrup/src/lib.rs:98-206 | over every run of all owners' and token holders' steps, each recorded deposit is covered by its vault, and a vault exceeds what is recorded by at most what was given to it |
| `MapleCustody.DepositsAreInTheVault` | programs/adapters/maple-syrup/src/lib.rs:98-206 | deposited amount never exceeds the vault balance, and equals it when the vault started empty and was given nothing directly |
| `MapleCustody.WithdrawalNeverSaturates` | programs/adapters/maple-syrup/src/lib.rs:193 | in that case the saturating subtraction never saturates |
| `MapleCustody.StepLeavesOthersAlone` | programs/adapters/maple-syrup/src/lib.rs:453-499 | a step signed by anyone else leaves a position as it was, and its vault too except for tokens sent to it |
| `MapleCustody.RunLeavesOthersAlone` | programs/adapters/maple-syrup/src/lib.rs:453-499 | over a whole run its owner does not sign, a position stays and its vault holds its old balance plus gifts |
| `MapleCustody.TokensConserved` | programs/adapters/maple-syrup/src/lib.rs:116-188 | user and vault tokens of every mint are conserved over every run |
| `MapleSyrup.Program.InitializePosition` | programs/adapters/maple-syrup/src/lib.rs:77-96 | in-place method equal to the step function |
| `MapleSyrup.Program.Deposit` | programs/adapters/maple-syrup/src/lib.rs:98-146 | in-place method equal to the step function, custody invariant kept, failures change nothing |
| `MapleSyrup.Program.Withdraw` | programs/adapters/maple-syrup/src/lib.rs:148-206 | the same, with more than the vault holds refused before the transfer |
| `MapleSyrup.Program.CurrentValue` | programs/adapters/maple-syrup/src/lib.rs:208-229 | the value of the vault the position names |
| `MapleSyrup.StoredValueAgrees` | programs/adapters/maple-syrup/src/lib.rs:127-135 | after a successful move, every successful query over the same feed answers the stored value |
| `MapleSyrup.QuerySucceedsAfterMove` | programs/adapters/maple-syrup/src/lib.rs:489-499 | and the accounts of the move do make that query succeed |
| `MapleAccess.WithdrawSucceeds` | programs/adapters/maple-syrup/src/lib.rs:148-206 | exactly when a withdrawal succeeds: own accounts, a nonzero amount the vault holds, room at the receiver, and a price for what is left |
| `MapleAccess.DepositSucceeds` | programs/adapters/maple-syrup/src/lib.rs:98-146 | exactly when a deposit succeeds; the deposit counter itself never overflows |
| `MapleAccess.QueriedVaultWithdrawable` | programs/adapters/maple-syrup/src/lib.rs:148-229 | where a query succeeds, a withdrawal succeeds if and only if the vault holds the nonzero amount and the receiver has room |
| `MapleAccess.UnusableFeedLocksVault` | programs/adapters/maple-syrup/src/lib.rs:600-648 | without a usable feed answer every deposit, withdrawal and query fails |
| `MapleAccess.OwnerCanWithdraw` | programs/adapters/maple-syrup/src/lib.rs:148-206 | over every run, an owner whose vault is still its own and can be valued can withdraw any nonzero amount up to what was recorded |
| `MapleAccess.OpenStores` | programs/adapters/maple-syrup/src/lib.rs:77-96 | a new position is empty, its owner's, and names the vault it was given; exactly when it is refused |
| `MapleAccess.MoveRecords` | programs/adapters/maple-syrup/src/lib.rs:127-135 | after a move the position holds the vault's balance and its price at the feed's answer |
| `MapleAccess.MoveRefusal` | programs/adapters/maple-syrup/src/lib.rs:430-568 | each refusal before the transfer names a demand that is not met |
| `MapleAccess.TransferRefusal` | programs/adapters/maple-syrup/src/lib.rs:157-188 | the errors of an admitted move from the transfer on |
| `Accounts.TokenAccountExact` | programs/adapters/maple-syrup/src/lib.rs:538-569 | what token account data must record, and the two errors |
| `Accounts.EncodedTokenAmount` | programs/adapters/maple-syrup/src/lib.rs:593-596 | the balance is read from byte 64; shorter data is refused |
| `Bytes.LowBytesFirst` | programs/adapters/maple-syrup/src/lib.rs:660-688 | multi-byte numbers are little-endian |

## Left out

- Kamino, MarginFi, Jupiter Perps, Drift and the Chainlink store program: their sources are not part of this model; a call into them may leave any accounts behind, and the store program's writes are modelled only as ring writes.
- The account lists adapters pass to those protocols, and their forwarding of remaining accounts (MarginFi and Jupiter): only the instruction data is modelled, since the protocols' use of the accounts is not.
- The hash and curve test behind program-derived addresses: address derivation is a parameter about which nothing is assumed.
- The order in which Anchor checks an instruction's accounts before the handler runs: such a failure always rolls back, but its error may differ from the one given here.
- The configuration and position addresses of the four protocol adapters, and their creation of configurations: a `Position` stands for an account already loaded at its address.
- Several Maple configurations side by side: the custody model has one, with one position address per owner.
- SPL token features beyond transfers, new accounts and changing the holder (minting, burning, delegates, freezing, closing).
- A dispatcher call made by an adapter that the dispatcher is invoking: the Solana runtime refuses such re-entry.
- Rent, compute limits, lamports and account sizes, apart from the serialized length of registry entries.
- Events, apart from those the log of `Ledger` keeps.
- The dispatcher's `initialize`, which only emits an event, and freshness of prices, which the code does not check.
- Concrete program, mint and oracle addresses: they are fields of configuration values.
- The TypeScript SDK, examples, deployment scripts and test flows: they only wrap the instructions.
