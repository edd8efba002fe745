# Verified model of the OIF solver

This project models the parts of the solver that carry its safety: the order lifecycle with crash
recovery, the DEX router, the file store, the dispatch loop, and a few codecs and caches. Everything is
proved for all inputs, all runs and all interleavings of the model. `dafny verify dfyconfig.toml` checks it.

**Order lifecycle.** A `World` holds the stored orders, the intents, the index from transaction hash to
order, everything in flight (events on the bus, transaction monitors, settlement monitors), what the chain
has decided, and the list that a running recovery still has to reconcile. Each handler is a method of
`Engine.Solver` that updates fields in place; its contract says that the whole world moves as the
corresponding function of `Protocol` says. `Runs` lets any number of orders take any steps: discovery,
handlers with arbitrary answers from the services, lost events, new receipts, crashes, and recovery of one
order at a time. The process may die between handlers, in the middle of recovery, and inside a handler
that has delivered a transaction. Two inductive invariants hold in every run and carry the theorems:
`HashInvariant` (hashes, proofs, continuations) and `StatusInvariant` (what the statuses mean).

`Outcomes` says what each handler and recovery do to an order in plain statuses, hashes and events, and proves
it of every step of every run: the tables there use none of the functions they are about.

**Router.** A breadth-first search over pools, a backward price, a slippage buffer, a forward quote and the
choice of the cheapest accepted route. Prices are positive fractions; every amount is floored and saturates
at 256 bits as in the code. `PriceBounds` states quotes and inputs against the prices themselves. The acceptance threshold treats the whole computation of a route as one chain of
"multiply, divide, round down" steps.

**File store.** Files with a 64-byte header and one inverted index a namespace, against a simple map from
key to bytes, deadline and index fields.

**Dispatch, codecs, cache, splice.** The event loop with its two semaphores and the claim batch; ERC-7930
addresses; the fill description; the message tracker; replacement of environment variables.

## Where the code differs from what it documents

The model follows the code. Each item has a theorem.

- `load_active_orders` is documented to load non-terminal orders. Its filter uses the serialised names of
  statuses (`finalized`, `{"failed": ...}`), while the index holds the displayed names (`Finalized`,
  `Failed`), so it excludes nothing (`crates/solver-core/src/recovery/mod.rs:165-196`,
  `crates/solver-core/src/state/order.rs:66`, `crates/solver-types/src/order.rs:351`).
  `Recovery.LoadMatchesDocumentation` says when this matters and
  `RecoveryTheorems.TerminalOrderResurrectsIff` when a failed order then gets a new event. What it costs is
  exact: in every run a status write is an edge of the table if and only if it does not confirm a claim of a
  failed order (`RunTheorems.EveryStatusWriteIsAnEdgeIff`), `Findings.FailedOrderIsFinalized` is a run in
  which that happens, and with the documented load it never does (`RunTheorems.DocumentedWritesAreEdges`).
- A successful claim is not always recorded. In runs, the exceptions are an order that had failed before and
  a receipt that cannot be read (`RecoveryTheorems.ReachableClaimEndsFinalized`);
  `Findings.SucceededClaimStaysFailed` is a run in which a pending claim fails its order and then succeeds.
- A crash between a delivery and the write of its hash can make recovery deliver the stage again
  (`RunTheorems.OneTransactionPerStage`, and the run `Findings.LostFillIsRepeated`). It starts a lost fill or
  post-fill again exactly if the latest stored transaction is read as a success; a pre-claim or claim also
  needs a yes of `can_claim` (`RecoveryTheorems.LostStageIsRepeatedIff`). A lost preparation is never
  repeated: the order stays Created, nothing is published for it (`RunTheorems.OnePrepare`).
- Recovery can restart the settlement monitor of a PreClaimed order. Its next pre-claim confirmation is
  refused and the order stalls (`Findings.PreClaimConfirmationAdvancesIff`, and the run
  `Findings.RepeatedPreClaimStalls`).
- Orphaned intents are handed back to the intent handler, whose duplicate check drops them, because their
  record is still stored (`Findings.ReinjectedOrphansAreDropped`, and the run
  `Findings.OrphanIsHandedBackAndDropped`).
- The cleanup of the file store guesses a key from its file name. For keys with `_` or `/` the guess is
  wrong: the file goes, the index entry stays (`FileTheorems.SweepUnlistsIffClean`,
  `FileTheorems.StaleEntry`). Two of the solver's
  own namespaces contain `_`; they are not indexed, so the refinement holds for them all the same
  (`FileTheorems.SolverKeysAreUsable`).
- An index value that is not a string is written as the name of a JSON object member and read back as a
  string, so it is no longer found by the value that was written (`FileTheorems.EqualsFindsIffString`). If
  another key is listed under that name, one of the two entries is lost (`FileDisk.SetIsCertainIff`,
  `FileTheorems.SameNumberConflicts`). The solver itself indexes strings only.
- The message tracker forgets a delivery across a restart seven days or more after it was written
  (`MessageTracker.RestartForgetsIff`, `MessageTracker.DeliveryIsForgottenIff`).

## Modelling choices

- Each handler is one atomic step as far as other handlers are concerned. If they could run in between, the
  claims about statuses would fail, since `TransactionPending` is published before the status is stored
  (`crates/solver-core/src/handlers/order.rs:87-115`).
- A crash may fall between handlers or, in a handler that delivers, anywhere after the delivery: the record
  and the transaction index may each be written or not (`crates/solver-core/src/handlers/order.rs:245-267`).
  In the other handlers and in recovery a crash halfway leaves what some whole step, or none, followed by a
  crash leaves.
- Recovery works with the receipts that it can read: any part of those that exist. One that it cannot read
  counts as a failure, as in the code (`crates/solver-core/src/recovery/mod.rs:287-295`). When a whole
  recovery is one step, what can be read and the answers of `can_claim` are fixed meanwhile.
- Storage operations are atomic and do not fail. Delivered hashes are fresh. A receipt is final. An order has
  the id of its intent. An intent comes again only while its record is kept or no order is stored for it:
  Signet execution and recovery remove records, and a rediscovery would then overwrite the order
  (`Findings.RediscoveryKeepsOrderIff`).
- Recovery finishes before events are handled, as `initialize_with_recovery` does.
- The clock is an argument, read once an operation, past the epoch.
- The names that JSON numbers and booleans get as object members are those that `serde_json` writes; of two
  members with one name the later is read. The order of hash maps is arbitrary.

## Model

| member | source | states |
|---|---|---|
| OrderStore.OrderStateMachine.StoreOrder | crates/solver-core/src/state/order.rs:198-206 | storing keeps exactly one index entry for each order, naming its current status |
| OrderStore.OrderStateMachine.UpdateOrderWith | crates/solver-core/src/state/order.rs:42-74 | read, change, write back; the index follows; a missing order is an error and nothing changes |
| OrderStore.OrderStateMachine.IdsNotIn | crates/solver-core/src/recovery/mod.rs:183-191 | the NotIn query selects by the index entry of the current status, each id once |
| OrderStore.OrderStateMachine.TransitionOrderStatus | crates/solver-core/src/state/order.rs:77-100 | the status is written exactly along an edge of the table; otherwise the error names both statuses and nothing changes |
| OrderStore.OrderStateMachine.SetTransactionHash | crates/solver-core/src/state/order.rs:209-223 | one hash of one order changes, nothing else |
| OrderStore.OrderStateMachine.SetFillProof | crates/solver-core/src/state/order.rs:238-247 | the proof of one order changes, nothing else |
| OrderTypes.TheEdges | crates/solver-core/src/state/order.rs:103-187 | the table as a list of edges: ten ways on, and failure from every status that is not terminal |
| Engine.Solver.HandleIntent | crates/solver-core/src/handlers/intent.rs:82-283 | duplicates are dropped; each decision leaves the intent record, the order and the first event that the protocol names |
| Engine.Solver.HandlePreparation | crates/solver-core/src/handlers/order.rs:67-135 | delivery, mapping and the unguarded write to Pending, or the direct step to Executing |
| Engine.Solver.HandleExecution | crates/solver-core/src/handlers/order.rs:139-287 | delivery of the fill, its hash and mapping; Signet intents lose their record |
| Engine.Solver.PollTransaction | crates/solver-core/src/monitoring/transaction.rs:35-135 | a pending transaction leads to at most one outcome event |
| Engine.Solver.HandleConfirmed | crates/solver-core/src/handlers/transaction.rs:101-165 | the settlement callback, then the handler of the type, found through the transaction index |
| Engine.Solver.HandlePrepareConfirmed | crates/solver-core/src/handlers/transaction.rs:191-226 | Executing and the Executing event, or nothing |
| Engine.Solver.HandleFillConfirmed | crates/solver-core/src/handlers/transaction.rs:232-264 | Executed and PostFillReady, or nothing |
| Engine.Solver.HandlePostFillConfirmed | crates/solver-core/src/handlers/transaction.rs:270-308 | PostFilled and the start of monitoring, or nothing |
| Engine.Solver.HandlePreClaimConfirmed | crates/solver-core/src/handlers/transaction.rs:314-339 | PreClaimed and ClaimReady, or nothing |
| Engine.Solver.HandleClaimConfirmed | crates/solver-core/src/handlers/transaction.rs:345-373 | the unguarded write of Finalized and of the claim hash |
| Engine.Solver.HandleFailed | crates/solver-core/src/handlers/transaction.rs:169-185 | Failed at the stage of the transaction, if the table allows it |
| Engine.Solver.HandlePostFillReady | crates/solver-core/src/handlers/settlement.rs:91-189 | the post-fill transaction, or monitoring at once when none is needed |
| Engine.Solver.SpawnSettlementMonitor | crates/solver-core/src/engine/mod.rs:409-426 | a settlement monitor for the stored order |
| Engine.Solver.StoreAttestation | crates/solver-core/src/monitoring/settlement.rs:43-74 | the proof is stored before polling starts |
| Engine.Solver.PollClaimReadiness | crates/solver-core/src/monitoring/settlement.rs:90-117 | Settled and PreClaimReady exactly when can_claim says yes |
| Engine.Solver.HandlePreClaimReady | crates/solver-core/src/handlers/settlement.rs:193-264 | the pre-claim transaction, or ClaimReady when none is needed; nothing without a proof |
| Engine.Solver.ProcessClaimBatch | crates/solver-core/src/handlers/settlement.rs:268-327 | the loop over a batch of any size; the first failure ends it and leaves the rest undone |
| Engine.BatchRefinesSteps | crates/solver-core/src/handlers/settlement.rs:268-327 | a batch without a failure is the same as its claims one after another |
| Engine.Solver.React | crates/solver-core/src/engine/mod.rs:333-445 | every kind of continuation reaches its handler, and the world moves as the protocol says |
| Engine.Solver.CorrectState | crates/solver-core/src/recovery/mod.rs:422-505 | one guarded write to the target status, skipped when it is already there |
| Engine.Solver.TransitionThroughStates | crates/solver-core/src/recovery/mod.rs:747-765 | guarded writes in turn, up to the first refusal |
| Engine.Solver.PublishRecoveryEvent | crates/solver-core/src/recovery/mod.rs:517-736 | one record and at most one event change, as the reconciliation result asks |
| Engine.Solver.LoadActiveOrders | crates/solver-core/src/recovery/mod.rs:165-196 | the ids that the filter selects on the index as it is kept, each once |
| Engine.Solver.RecoverOrphanedIntents | crates/solver-core/src/recovery/mod.rs:208-245 | intents without an order are returned, records of the others removed |
| Engine.Solver.RecoverState | crates/solver-core/src/recovery/mod.rs:113-154 | the whole recovery with its report: loaded, orphaned and reconciled are counted right, every order ends as its stored transactions and receipts call for, and every active one ends or is live again exactly under the condition of Survives |
| Outcomes.HandlersDoWhatIsDue | crates/solver-core/src/handlers/transaction.rs:101-373 | in every run each handler leaves the literal record and continuation of its stage: Pending to Executing, Executing to Executed, Executed to PostFilled, Settled to PreClaimed, the claim to Finalized, each with its event; what it delivers is mapped, only a Signet fill drops an intent, and nothing else changes |
| Outcomes.DiscoveryOutcome | crates/solver-core/src/handlers/intent.rs:82-283 | for each decision, which intent record, order and first event are left |
| Outcomes.RecoveryDoesWhatIsDue | crates/solver-core/src/recovery/mod.rs:261-736 | a whole recovery at any moment of any run: for every listed order the literal status and continuation that its latest stored transaction and its receipt call for, Failed of that stage if it is not read as a success; a terminal record is left alone, and so are orders not listed |
| Outcomes.EveryOrderIsRecoveredAsDue | crates/solver-core/src/recovery/mod.rs:113-196 | with the list that is really returned, that is every order |
| Recovery.LoadMatchesDocumentation | crates/solver-core/src/recovery/mod.rs:165-196 | the load as written and as documented agree on an order if and only if it is not terminal |
| Recovery.IndexValueNeverExcluded | crates/solver-core/src/state/order.rs:66 | no status that the index can hold is among the excluded values |
| Engine.ReconciledCountIs | crates/solver-core/src/recovery/mod.rs:113-154 | the report counts each loaded order once, exactly if the chain of its latest transaction is known |
| Preservation.HandlerIsLocal | crates/solver-core/src/engine/mod.rs:318-445 | each handler changes only its own order, consumes its continuation and puts at most one back |
| Preservation.ReactKeeps | crates/solver-core/src/handlers/transaction.rs:101-373 | every handler step keeps both invariants, on resumed failed orders too |
| Preservation.CrashKeeps | crates/solver-core/src/recovery/mod.rs:113-154 | losing everything in flight keeps both invariants, whatever is loaded next |
| Preservation.TearKeeps | crates/solver-core/src/handlers/order.rs:245-267 | a crash inside a delivering handler keeps both invariants, wherever it falls |
| Preservation.DiscoverKeeps | crates/solver-core/src/handlers/intent.rs:82-283 | a new order starts without hashes and with at most one continuation |
| Preservation.ReconcileKeeps | crates/solver-core/src/recovery/mod.rs:261-407 | recovery of one order keeps both invariants, whatever it can read and whichever order it was given |
| Invariants.ApplyKeepsHashInvariant | crates/solver-core/src/engine/mod.rs:318-445 | any step that is right for its own order keeps the invariant of the whole world |
| RunTheorems.HashInvariantHolds | crates/solver-core/src/engine/mod.rs:318-445 | in every run, with any crashes: hashes were delivered for their order, in lifecycle order, on top of successes |
| RunTheorems.StatusInvariantHolds | crates/solver-core/src/state/order.rs:103-187 | in every run statuses agree with hashes, proofs and the live continuation |
| RunTheorems.EveryStatusWriteIsAnEdgeIff | crates/solver-core/src/state/order.rs:103-187 | in any run a status write, guarded or not, is an edge of the table or no change, if and only if it does not confirm a claim of a failed order |
| RunTheorems.DocumentedWritesAreEdges | crates/solver-core/src/state/order.rs:103-187 | if every restart loads what is documented, every status write is an edge or no change |
| RunTheorems.DocumentedChanges | crates/solver-core/src/state/order.rs:103-187 | with that load an order changes its status at most seven times and no claim comes late |
| RunTheorems.StatusRises | crates/solver-core/src/state/order.rs:103-187 | in any run the rank only rises, Finalized absorbs, and Failed is left only for Finalized |
| RunTheorems.AtMostSevenChanges | crates/solver-core/src/state/order.rs:103-187 | in any run an order changes its status at most seven times, and an eighth time only by the one late claim of a failed order |
| RunTheorems.DocumentedRunsNeverResurrect | crates/solver-core/src/recovery/mod.rs:156-196 | if every restart loads what is documented, no terminal order comes back to life |
| RunTheorems.OneLiveContinuation | crates/solver-core/src/engine/mod.rs:318-445 | each order has at most one thing in flight, whatever recovery loads |
| RunTheorems.PastGrows | crates/solver-core/src/handlers/settlement.rs:91-327 | transactions are delivered only by the handler of their stage, and can_claim is only asked by the monitor and by recovery |
| RunTheorems.OneTransactionPerStage | crates/solver-core/src/engine/mod.rs:318-445 | a second Fill, PostFill or Claim of an order is delivered only after a crash that lost the hash of the first, and a second Prepare never, across all crashes and recoveries |
| RunTheorems.OnePrepare | crates/solver-core/src/handlers/order.rs:67-135 | in any run at most one Prepare is delivered for an order, wherever a crash falls |
| RunTheorems.HashesStay | crates/solver-core/src/state/order.rs:209-223 | once stored, a hash of these stages stays with its order for the rest of the run |
| RunTheorems.ClaimsAreEarned | crates/solver-core/src/handlers/settlement.rs:267-327 | when a claim is delivered, the fill has succeeded on chain, its proof is stored and can_claim has said yes before |
| RecoveryTheorems.RecoveryLosesNothing | crates/solver-core/src/recovery/mod.rs:113-154 | a whole recovery, started at any moment of any run: every active order that it loads ends terminal or with exactly one continuation, if and only if it has execution params and the chain it needs |
| RecoveryTheorems.EveryActiveOrderSurvives | crates/solver-core/src/recovery/mod.rs:165-196 | with the list that load_active_orders really returns, that is every active order |
| RecoveryTheorems.TurnLosesNothing | crates/solver-core/src/recovery/mod.rs:517-736 | the same for the turn of one order, while the chain moves between turns |
| RecoveryTheorems.LostStageIsRepeatedIff | crates/solver-core/src/recovery/mod.rs:261-407 | after a crash that lost a hash, the exact condition on record, receipts and can_claim under which recovery starts the stage again, and under which it resumes the order at all |
| RecoveryTheorems.ClaimSuccessEndsFinalized | crates/solver-core/src/recovery/mod.rs:667-736 | on any record, a succeeded claim ends Finalized if and only if the status is not Created, Pending or Failed |
| RecoveryTheorems.ReachableClaimEndsFinalized | crates/solver-core/src/recovery/mod.rs:667-736 | in any run, recovering an order with a claim ends Finalized if and only if it was Finalized, or had not failed and the claim is read as a success |
| RecoveryTheorems.TerminalOrderResurrectsIff | crates/solver-core/src/recovery/mod.rs:261-407 | recovery never rewrites a terminal order, and publishes for it exactly when it is unclaimed and its latest transaction succeeded |
| RecoveryTheorems.RecoverAllIsPointwise | crates/solver-core/src/recovery/mod.rs:113-154 | the loop treats every order alone, so the order of the list does not matter |
| RecoveryTheorems.RecoverOrderTwice | crates/solver-core/src/recovery/mod.rs:422-505 | on any record, a second recovery writes nothing and publishes the same event |
| RecoveryTheorems.RecoveryIsIdempotent | crates/solver-core/src/recovery/mod.rs:113-154 | over any store, and with the documented or the real list, crashing and recovering again leaves the same records and the same continuations |
| Findings.FailedOrderIsFinalized | crates/solver-core/src/recovery/mod.rs:165-196 | a run of the code as written in which a failed order is resumed, claimed and finalized |
| Findings.SucceededClaimStaysFailed | crates/solver-core/src/recovery/mod.rs:267-295 | a run in which recovery fails an order over a pending claim, and leaves it failed when the claim has succeeded |
| Findings.RepeatedPreClaimStalls | crates/solver-core/src/handlers/transaction.rs:314-339 | a run in which a second pre-claim is confirmed and the order stalls |
| Findings.LostFillIsRepeated | crates/solver-core/src/handlers/order.rs:245-267 | a run in which a crash loses the hash of a fill and recovery delivers a second one |
| Preservation.HandlerWritesAnEdgeIff | crates/solver-core/src/handlers/transaction.rs:345-373 | whatever the statuses are, a handler writes along the table if and only if the two unguarded writes start from the right statuses |
| Findings.PreClaimConfirmationAdvancesIff | crates/solver-core/src/handlers/transaction.rs:314-339 | a confirmed pre-claim leads on exactly from Settled; otherwise nothing is written and nothing stays in flight |
| Findings.ReinjectedOrphansAreDropped | crates/solver-core/src/handlers/intent.rs:82-110 | handing back an orphaned intent has no effect |
| Findings.OrphanIsHandedBackAndDropped | crates/solver-core/src/recovery/mod.rs:208-245 | a run in which a restart hands an orphaned intent back and its discovery does nothing |
| Findings.RediscoveryKeepsOrderIff | crates/solver-core/src/handlers/order.rs:215-222 | exactly when a rediscovered intent leaves the stored order alone |
| Dispatch.Dispatcher.OnEvent | crates/solver-core/src/engine/mod.rs:332-446 | each event goes to the semaphore of its handler, or into the claim batch |
| Dispatch.Dispatcher.OnPermit | crates/solver-core/src/engine/mod.rs:534-553 | a task is spawned with its permit and the loop goes on |
| Dispatch.NextKeeps | crates/solver-core/src/engine/mod.rs:313-553 | dispatching, granting, beginning and ending keep the permit count, the order of transaction tasks and the batch invariant |
| Dispatch.TransactionsAreSerial | crates/solver-core/src/engine/mod.rs:313-316 | in every interleaving one transaction-sending handler runs at a time, in dispatch order, after all earlier ones have begun and ended |
| Dispatch.AtMostHundredOthers | crates/solver-core/src/engine/mod.rs:313-316 | at most a hundred other handlers hold a permit, and each handler is guarded by its own semaphore |
| Dispatch.EachClaimEntersOneBatch | crates/solver-core/src/engine/mod.rs:428-443 | for any batch size, the ids received are the batches in order plus fewer than one batch pending; every batch is full |
| Dispatch.DispatchedIsTaken | crates/solver-core/src/engine/mod.rs:318-446 | in every run the dispatched work is what the loop took: each event once, under the semaphore of its kind, in order and with its own payload; the ids received for claiming are those of the claim events |
| Router.FindAllRoutes | crates/solver-dex/src/router.rs:250-304 | exactly the simple paths along pools within the hop limit, in breadth-first order; the loop terminates |
| Router.ExpansionShrinks | crates/solver-dex/src/router.rs:261-294 | replacing a queued path by its extensions lowers the sum of (pools+1)^(max_hops+1-length) |
| Router.LayeredAfter | crates/solver-dex/src/router.rs:261-294 | the queue stays sorted by length and spans at most two lengths |
| Router.StillCovered | crates/solver-dex/src/router.rs:261-294 | every route is found already or still led to by a queued path |
| Router.DexRouter.FindBestRoute | crates/solver-dex/src/router.rs:132-246 | the cheapest accepted route, the first one found among equals and so one with fewest hops, with needed <= minimum <= output; each error exactly when it is due |
| Router.DexRouter.CheapestRoute | crates/solver-dex/src/router.rs:178-215 | the loop finds the first of the cheapest accepted routes, or none is accepted |
| Router.DexRouter.ProfitableRouteIsNeverSkipped | crates/solver-dex/src/router.rs:175-211 | for every amount between the threshold and the 256-bit limit, a route that is profitable on paper is accepted, and the answer is a route no dearer than it |
| Router.DexRouter.LosingRoutesAreInsufficient | crates/solver-dex/src/router.rs:175-211 | if every route loses on paper, the answer is InsufficientLiquidity for every positive amount |
| Router.DexRouter.UpdatePoolPrices | crates/solver-dex/src/router.rs:114-116 | the pools are replaced and nothing else |
| Router.MinAmountOut | crates/solver-dex/src/router.rs:362-371 | the share that the slippage leaves, rounded down and never above the amount |
| Router.RoutesArePriced | crates/solver-dex/src/router.rs:307-347 | no price lookup fails on an enumerated route |
| Pricing.CalculateQuote | crates/solver-dex/src/uniswap_v4.rs:93-138 | the forward loop computes the quote hop by hop, first missing pool as the error |
| Pricing.CalculateInputNeeded | crates/solver-dex/src/router.rs:307-347 | the backward loop computes the input, last missing pool as the error |
| Pricing.FoundPoolIsFirst | crates/solver-dex/src/uniswap_v4.rs:106-110 | the pool of a hop is the first of the list that trades the pair in either direction |
| PriceBounds.OneHopPaysAtPrice | crates/solver-dex/src/uniswap_v4.rs:111-128 | one hop along the pool pays amount times ratio, against it amount over ratio, and the input the other way round: never more, and less than the two roundings below it |
| PriceBounds.QuoteIsWorth | crates/solver-dex/src/uniswap_v4.rs:93-138 | on any route a quote is the amount times the prices: never more, saturated or not, and below saturation less by at most an explicit loss |
| PriceBounds.InputIsWorth | crates/solver-dex/src/router.rs:307-347 | on any route the input is the output over the prices: never more, and below saturation less by at most an explicit loss |
| PriceBounds.QuoteFailsAtFirst | crates/solver-dex/src/uniswap_v4.rs:118-124 | a quote fails exactly if a hop has no pool, and names the first such hop |
| PriceBounds.InputFailsAtLast | crates/solver-dex/src/router.rs:333-335 | the input fails on the same routes, and names the last such hop |
| Pricing.QuoteMonotone | crates/solver-dex/src/uniswap_v4.rs:93-138 | a larger input never quotes less, saturation included |
| Pricing.InputNeededMonotone | crates/solver-dex/src/router.rs:307-347 | a larger output never needs less, saturation included |
| Pricing.QuoteOfInputNeverExceeds | crates/solver-dex/src/router.rs:307-347 | without the buffer, quoting the computed input never exceeds the requested output, on any route |
| Acceptance.BufferIsFloor | crates/solver-dex/src/router.rs:350-359 | the buffered amount is amount times (10000 + slippage) over 10000, rounded down |
| Acceptance.AcceptedFromThreshold | crates/solver-dex/src/router.rs:307-359 | a route that is profitable on paper quotes at least the requested amount, from an explicit threshold on and below saturation |
| Acceptance.RejectedBelowPar | crates/solver-dex/src/router.rs:307-359 | a route that loses on paper quotes less than any positive amount, saturated or not |
| Acceptance.OutputIsRun | crates/solver-dex/src/router.rs:307-359 | backward price, buffer and quote together are one chain of rounded steps, an upper bound under saturation |
| FileFormat.Header.Serialize | crates/solver-storage/src/implementations/file.rs:58-65 | the buffer holds magic, version, expiry and padding in the documented layout |
| FileFormat.HeaderLayout | crates/solver-storage/src/implementations/file.rs:18-25 | "OIFS", version 1 and the expiry byte by byte, lowest first, then the padding: 64 bytes |
| FileFormat.HeaderRoundTrip | crates/solver-storage/src/implementations/file.rs:58-102 | reading back a written header gives the header, whatever follows it |
| FileFormat.HeaderReadsOnlyEncodings | crates/solver-storage/src/implementations/file.rs:68-102 | an accepted header is the encoding of what was read |
| FileFormat.RecoveredIffClean | crates/solver-storage/src/implementations/file.rs:191-195 | the key guessed from a file name is right if and only if the key has no '_' and no '/' |
| FileStore.FileStorage.SetBytes | crates/solver-storage/src/implementations/file.rs:542-586 | the file is written with its header; index fields of any JSON values are replaced, left alone, or refused after the file was written |
| FileStore.FileStorage.GetBytes | crates/solver-storage/src/implementations/file.rs:509-539 | data, not found when absent or expired, and legacy files as they are |
| FileStore.FileStorage.Remove | crates/solver-storage/src/implementations/file.rs:589-601 | the file goes, and with it the index entries of the key |
| FileStore.FileStorage.HasKey | crates/solver-storage/src/implementations/file.rs:604-607 | whether there is a file, expired or not |
| FileStore.FileStorage.UpdateIndexes | crates/solver-storage/src/implementations/file.rs:301-377 | for any JSON values: an error and no change if one cannot be a member name, otherwise the key is listed under the names of its new fields and no others, up to the loss of one of two values with the same name |
| FileDisk.RewrittenIff | crates/solver-storage/src/implementations/file.rs:338-374 | writing and reading the index loses nothing if and only if no value that is not a string shares its name with another key |
| FileDisk.SetIsCertainIff | crates/solver-storage/src/implementations/file.rs:542-586 | so a write has one certain outcome, the one of the simple map, if and only if there is no such value |
| FileStore.FileStorage.RemoveFromIndexes | crates/solver-storage/src/implementations/file.rs:381-448 | the key is listed nowhere; an index with nothing left is removed |
| FileStore.FileStorage.Query | crates/solver-storage/src/implementations/file.rs:617-713 | exactly the unexpired keys that the filter asks for, each once |
| FileStore.FileStorage.CleanupExpired | crates/solver-storage/src/implementations/file.rs:451-503 | the directory loop sweeps expired files and counts them |
| FileStore.Matching | crates/solver-storage/src/implementations/file.rs:642-692 | all five filters select the keys listed under some value that they ask for |
| FileTheorems.SetRefines | crates/solver-storage/src/implementations/file.rs:542-586 | a write is a write to the simple map; absent index fields keep the old ones |
| FileTheorems.DeleteRefines | crates/solver-storage/src/implementations/file.rs:589-601 | a deletion removes one record, under the key or under the cleanup's guess |
| FileTheorems.CleanupRefines | crates/solver-storage/src/implementations/file.rs:451-503 | a cleanup removes exactly the ended records, in any directory order, and returns their number |
| FileTheorems.GetAgrees | crates/solver-storage/src/implementations/file.rs:509-539 | a read gives the last unexpired write |
| FileTheorems.QueryAgrees | crates/solver-storage/src/implementations/file.rs:617-713 | a query gives the unexpired records whose fields satisfy the filter |
| FileTheorems.OneValuePerField | crates/solver-storage/src/implementations/file.rs:301-377 | a key is listed under one value of a field |
| FileTheorems.StoreIsASimpleMap | crates/solver-storage/src/implementations/file.rs:301-713 | after any sequence of writes, deletions, cleanups and ticks the disk refines the simple map |
| FileTheorems.ReadsAgreeAfterAnyRun | crates/solver-storage/src/implementations/file.rs:509-713 | so every read and query after any such sequence answers as the simple map does |
| FileTheorems.FiltersPartition | crates/solver-storage/src/implementations/file.rs:642-692 | Equals is In with one value, NotEquals is NotIn with one, and every key with the field is in exactly one of In and NotIn |
| FileTheorems.LegacyFiles | crates/solver-storage/src/implementations/file.rs:516-538 | a file without a header is read as it is at any time, never found and never swept |
| FileTheorems.DeleteLeavesIndexIff | crates/solver-storage/src/implementations/file.rs:411-431 | a deletion leaves an index file exactly if another key is listed in it |
| FileTheorems.WriteLastsAsConfigured | crates/solver-storage/src/implementations/file.rs:198-207 | a write without a duration is read back exactly while its namespace's configured time lasts, forever if none is configured or it is zero |
| FileTheorems.WriteLastsAsGiven | crates/solver-storage/src/implementations/file.rs:559-562 | a duration given with the write counts instead |
| FileTheorems.EqualsFindsIffString | crates/solver-storage/src/implementations/file.rs:652-657 | a record is found by the value that was written if and only if that is a string |
| FileTheorems.SameNumberConflicts | crates/solver-storage/src/implementations/file.rs:338-374 | two keys of a namespace with the same number are enough for a loss |
| FileTheorems.CleanKeysAreUsable | crates/solver-storage/src/implementations/file.rs:191-195 | keys without '_' and '/' never share a file |
| FileTheorems.SolverKeysAreUsable | crates/solver-types/src/storage.rs:26-33 | the keys of the solver's namespaces never share a file either |
| FileTheorems.WriteDisturbsIff | crates/solver-storage/src/implementations/file.rs:191-195 | a write under one key changes what another reads if and only if their names agree up to '/', ':' and '_' |
| FileTheorems.SweepUnlistsIffClean | crates/solver-storage/src/implementations/file.rs:474-479 | a whole cleanup that meets an ended, indexed file removes it, and unlists its key if and only if the key has no '_' and no '/'; other files and keys do not matter |
| FileTheorems.StaleEntry | crates/solver-storage/src/implementations/file.rs:451-503 | any indexed key with '_' or '/' stays listed after the cleanup of its file |
| Eip7930.ToBytes | crates/solver-types/src/standards/eip7930.rs:158-167 | the pushes build the layout, with lengths cut to one byte |
| Eip7930.LayoutOf | crates/solver-types/src/standards/eip7930.rs:158-167 | what stands at each position of the bytes |
| Eip7930.RoundTripIff | crates/solver-types/src/standards/eip7930.rs:107-167 | version-1 addresses with parts up to 255 bytes, not both empty, are read back; all others are rejected |
| Eip7930.AcceptsOnlyEncodings | crates/solver-types/src/standards/eip7930.rs:107-155 | every accepted input is the encoding of what was read |
| Eip7930.NewEthereum | crates/solver-types/src/standards/eip7930.rs:73-95 | the three branches give the big-endian form without leading zeros |
| Eip7930.EthereumChainId | crates/solver-types/src/standards/eip7930.rs:175-185 | the shifting loop computes the reference modulo 2^64 |
| Eip7930.MinimalIsShortest | crates/solver-types/src/standards/eip7930.rs:73-95 | that form is the shortest one and unique |
| Eip7930.EthereumRoundTrip | crates/solver-types/src/standards/eip7930.rs:73-185 | for every 64-bit id the address survives the bytes and gives the id back |
| FillDescription.EncodeFillDescription | crates/solver-settlement/src/implementations/hyperlane.rs:187-240 | the payload, or the error for the part that is too large |
| FillDescription.DecodeInvertsEncode | crates/solver-settlement/src/implementations/hyperlane.rs:175-240 | all eight fields are recovered from the payload |
| FillDescription.EncodeInvertsDecode | crates/solver-settlement/src/implementations/hyperlane.rs:175-240 | whatever decodes is a payload |
| FillDescription.DistinctFillsDiffer | crates/solver-settlement/src/implementations/hyperlane.rs:187-240 | different fills have different payloads |
| FillDescription.NoPayloadExtendsAnother | crates/solver-settlement/src/implementations/hyperlane.rs:187-240 | no payload is a prefix of another |
| MessageTracker.MessageTracker.LoadMessage | crates/solver-settlement/src/implementations/hyperlane.rs:380-404 | cache first, then storage, and what is found is cached |
| MessageTracker.MessageTracker.SaveMessage | crates/solver-settlement/src/implementations/hyperlane.rs:407-439 | storage and cache are written together; delivered messages get seven days |
| MessageTracker.MessageTracker.TrackSubmission | crates/solver-settlement/src/implementations/hyperlane.rs:442-482 | the submission is replaced and a delivery kept |
| MessageTracker.MessageTracker.MarkDelivered | crates/solver-settlement/src/implementations/hyperlane.rs:496-522 | a delivery is added only to a submitted message; an unknown one is an error |
| MessageTracker.MessageTracker.CheckDelivery | crates/solver-settlement/src/implementations/hyperlane.rs:616-712 | the answer and the state written, for each outcome of the proof check |
| MessageTracker.CheckTellsTheTruth | crates/solver-settlement/src/implementations/hyperlane.rs:616-712 | a check says yes exactly if the message is then known as delivered, answers as the chain does for a submitted one, and is an error without a submission |
| MessageTracker.DeliveryIsRecorded | crates/solver-settlement/src/implementations/hyperlane.rs:496-522 | which message id, time and hash a delivery gets, by marking and by checking; the submission stays |
| MessageTracker.SubmissionIsRecorded | crates/solver-settlement/src/implementations/hyperlane.rs:442-482 | the new submission is cached and stored, and an earlier delivery kept |
| MessageTracker.CacheIsLastWritten | crates/solver-settlement/src/implementations/hyperlane.rs:380-522 | in any run, cached and stored states are the last ones written, and delivered implies submitted |
| MessageTracker.LoadsFindTheLastWrite | crates/solver-settlement/src/implementations/hyperlane.rs:380-404 | a load finds the last write or nothing, and for a cached order the last write |
| MessageTracker.DeliveredNeverReverts | crates/solver-settlement/src/implementations/hyperlane.rs:616-712 | within one process a known delivery stays, however long ago its storage expired |
| MessageTracker.RestartForgetsIff | crates/solver-settlement/src/implementations/hyperlane.rs:407-439 | a restart, however late in a run, finds a stored state if and only if its time is not over, as long as nothing else was written for that order |
| MessageTracker.DeliveryIsForgottenIff | crates/solver-settlement/src/implementations/hyperlane.rs:407-439 | so a written delivery is known after any such restart if and only if less than seven days have passed |
| MessageTracker.SubmissionIsForgottenIff | crates/solver-settlement/src/implementations/hyperlane.rs:407-439 | and a submission if and only if the configured time, if any, is not over |
| EnvSplice.ReplaceSpans | crates/solver-config/src/lib.rs:403-406 | replacing in place from last to first equals one pass from left to right |
| EnvSplice.SpansOf | crates/solver-config/src/lib.rs:386-400 | each match gets the value of its variable, and its default only if the variable is not set |
| EnvSplice.ResolveEnvVars | crates/solver-config/src/lib.rs:364-409 | the spliced text, or the first variable without a value, or the size error |
| EnvSplice.StaysInPlace | crates/solver-config/src/lib.rs:403-406 | a recorded span is still where it was when its turn comes |
| EnvSplice.SplicedLength | crates/solver-config/src/lib.rs:403-406 | the length changes by what is added and removed |
| EnvSplice.UntouchedCharacters | crates/solver-config/src/lib.rs:403-406 | every character outside the spans is kept and only moves |
| EnvSplice.ReplacedSpans | crates/solver-config/src/lib.rs:403-406 | every value stands where its span would have moved to |
| EnvSplice.SplicedIdentity | crates/solver-config/src/lib.rs:403-406 | spans replaced by what they cover change nothing |

## Left out

- RunTheorems.DocumentedWritesAreEdges: assumes the documented load; with the load as written it is false, as Findings.FailedOrderIsFinalized shows.
- RunTheorems.OneTransactionPerStage: says nothing of PreClaim, since recovery may monitor again from PreClaimed and deliver a second one.
- RecoveryTheorems.RecoveryLosesNothing: is about orders; orphaned intents are not claimed to be recovered, because the file store keeps intents without an index and the query finds none.
- Router.DexRouter.FindBestRoute: idealises floating-point ratios as positive fractions, requires a slippage of at most 10000 basis points, and leaves the empty pool list of the quote and its fee out.
- Acceptance.AcceptedFromThreshold: the threshold is sufficient, not the least one.
- FileTheorems.StoreIsASimpleMap: allows index fields only for keys without '_' and '/', needs keys that do not share a file and values that do not conflict, each the exact condition of a theorem above; an empty key is never swept, as in the code.
- MessageTracker.CacheIsLastWritten: each operation is atomic; a load and a save of two concurrent callers are not interleaved.
- Dispatch.EachClaimEntersOneBatch: shutdown is not a step; with a batch size above one it would leave the pending ids unclaimed.
- EnvSplice.ResolveEnvVars: takes the matches of the pattern as given, in order and disjoint.
- Network, RPC, HTTP, signing, hashing and ABI encoding; they are answers of an oracle or fresh values.
- Configuration files, regular expressions, registries, factories and builders.
- File locks, temporary files and the rebuild of a corrupted index; each storage operation is atomic.
- Files without a header: the refinement of the simple map is about files that the store has written.
- Cost, profit and price estimates, swap calldata and approvals.
- The memory store, schema validation and the conversion of API responses.
- The time stamp `updated_at`, the settler addresses, and the Completed event, which nothing consumes.
- Signet execution beyond the removal of its intent record.
- Liveness: monitors time out and events may be lost, so only safety and single steps are claimed.
