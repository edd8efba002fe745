/** Recovery of one order: what reconciliation decides, which status it writes and what it publishes. */
module Recovery {
  import opened Wrappers
  import opened OrderTypes
  import opened Json
  import opened OrderStore
  import opened Protocol

  datatype ReconcileResult =
    | NeedsExecution
    | NeedsFill
    | NeedsPostFill
    | NeedsMonitoring
    | NeedsPreClaim(proof: Option<FillProof>)
    | NeedsClaim(proof: Option<FillProof>)
    | HasFailed(tx: TxType)
    | IsFinalized

  datatype RecoveryError = NoInputChains | NoOutputChains

  // A receipt that cannot be read counts as a failed transaction. So recovery takes the receipts that it
  // can read: some of those that exist.
  ghost predicate Readable(readable: Receipts, receipts: Receipts) {
    forall k :: k in readable ==> k in receipts && receipts[k] == readable[k]
  }

  predicate Confirmed(receipts: Receipts, hash: Hash, chain: ChainId) {
    GetStatus(receipts, hash, chain) == Some(true)
  }

  // reconcile_with_blockchain: the most advanced transaction hash decides.
  function ReconcileWithBlockchain(o: Order, receipts: Receipts): Result<ReconcileResult, RecoveryError> {
    if o.claimTx.Some? then
      if o.inputChains == [] then Err(NoInputChains)
      else if Confirmed(receipts, o.claimTx.value, o.inputChains[0]) then Ok(IsFinalized)
      else Ok(HasFailed(Claim))
    else if o.preClaimTx.Some? then
      if o.inputChains == [] then Err(NoInputChains)
      else if Confirmed(receipts, o.preClaimTx.value, o.inputChains[0]) then Ok(NeedsClaim(o.fillProof))
      else Ok(HasFailed(PreClaim))
    else if o.postFillTx.Some? then
      if o.outputChains == [] then Err(NoOutputChains)
      else if Confirmed(receipts, o.postFillTx.value, o.outputChains[0]) then Ok(NeedsMonitoring)
      else Ok(HasFailed(PostFill))
    else if o.fillTx.Some? then
      if o.outputChains == [] then Err(NoOutputChains)
      else if Confirmed(receipts, o.fillTx.value, o.outputChains[0]) then
        if o.fillProof.Some? then Ok(NeedsPreClaim(o.fillProof)) else Ok(NeedsPostFill)
      else Ok(HasFailed(Fill))
    else if o.prepareTx.Some? then
      if o.inputChains == [] then Err(NoInputChains)
      else if Confirmed(receipts, o.prepareTx.value, o.inputChains[0]) then Ok(NeedsFill)
      else Ok(HasFailed(Prepare))
    else Ok(NeedsExecution)
  }

  function TargetStatus(o: Order, r: ReconcileResult): Status {
    match r
    case NeedsExecution =>
      if o.prepareTx.None? && o.executionParams.Some? then Status.Executing else Created
    case NeedsFill => Status.Executing
    case NeedsPostFill => Executed
    case NeedsMonitoring => if o.postFillTx.Some? then PostFilled else Executed
    case NeedsPreClaim(_) => Settled
    case NeedsClaim(_) => if o.preClaimTx.Some? then PreClaimed else Settled
    case IsFinalized => Finalized
    case HasFailed(t) => Failed(t)
  }

  // ensure_correct_state: one guarded write, skipped when the status is already right.
  function EnsureCorrectState(o: Order, r: ReconcileResult): Order {
    if o.status == TargetStatus(o, r) then o else Transitioned(o, TargetStatus(o, r))
  }

  // transition_through_states: guarded writes in turn, stopping at the first one that is refused.
  function Through(o: Order, states: seq<Status>): Order
    decreases |states|
  {
    if states == [] || !IsValidTransition(o.status, states[0]) then o
    else Through(o.(status := states[0]), states[1..])
  }

  // The statuses that the Finalized branch of publish_recovery_event walks through.
  function PathToFinalized(s: Status): seq<Status> {
    match s
    case Created => [Executed, Settled, Finalized]
    case Pending => [Executed, Settled, Finalized]
    case Executing => [Executed, Settled, Finalized]
    case Executed => [Settled, Finalized]
    case PostFilled => [Settled, Finalized]
    case PreClaimed => [Settled, Finalized]
    case Settled => [Finalized]
    case Finalized => []
    case Failed(_) => []
  }

  function MonitorAgain(o: Order): Option<Cont> {
    if o.fillTx.Some? then Some(StartMonitoring(o.id, o.fillTx.value)) else None
  }

  // Whether publish_recovery_event puts the question can_claim for this result.
  predicate Asks(r: ReconcileResult) {
    (r.NeedsPreClaim? || r.NeedsClaim?) && r.proof.Some?
  }

  // publish_recovery_event after the status has been corrected: the final record and the event.
  function PublishFor(o: Order, r: ReconcileResult, canClaim: bool): (Order, Option<Cont>) {
    match r
    case NeedsExecution =>
      (o, if o.executionParams.Some? then Some(Cont.Executing(o, o.executionParams.value)) else None)
    case NeedsFill =>
      (o, if o.executionParams.Some? then Some(Cont.Executing(o, o.executionParams.value)) else None)
    case NeedsPostFill => (o, Some(PostFillReady(o.id)))
    case NeedsMonitoring => (o, MonitorAgain(o))
    case NeedsPreClaim(proof) =>
      (o, if proof.Some? && canClaim then Some(PreClaimReady(o.id)) else MonitorAgain(o))
    case NeedsClaim(proof) =>
      (o, if proof.Some? && canClaim then Some(ClaimReady(o.id)) else MonitorAgain(o))
    case HasFailed(t) => (Transitioned(o, Failed(t)), None)
    case IsFinalized => (Through(o, PathToFinalized(o.status)), None)
  }

  // Recovery of one record: the record afterwards and the event published for it, if any.
  function RecoverOrder(o: Order, receipts: Receipts, canClaim: bool): (Order, Option<Cont>) {
    match ReconcileWithBlockchain(o, receipts)
    case Err(_) => (o, None)
    case Ok(r) => PublishFor(EnsureCorrectState(o, r), r, canClaim)
  }

  predicate AsksFor(o: Order, receipts: Receipts) {
    var r := ReconcileWithBlockchain(o, receipts);
    r.Ok? && Asks(r.value)
  }

  // One turn of the loop in recover_state.
  function RecoverNext(w: World, readable: Receipts, canClaim: bool): World
    requires w.recovering != []
  {
    var id := w.recovering[0];
    var v := w.(recovering := w.recovering[1..]);
    if id !in w.orders then v
    else
      var (o, c) := RecoverOrder(w.orders[id], readable, canClaim);
      var u := if AsksFor(w.orders[id], readable) && canClaim then DeclareClaimable(v, id) else v;
      PublishOption(PutOrder(u, id, o), c)
  }

  // A crash loses everything in flight. The next start loads `loaded`; unless that list is empty it
  // also drops the intent records among `seen` whose order exists.
  function Restart(w: World, loaded: seq<OrderId>, seen: set<OrderId>): World {
    w.(bus := multiset{}, recovering := loaded,
       intents := if loaded == [] then w.intents else w.intents - (set id | id in seen && id in w.orders))
  }

  // The whole loop, while nothing changes in what can be read and asked.
  function RecoverAll(w: World, readable: Receipts, canClaim: OrderId -> bool): World
    decreases |w.recovering|
  {
    if w.recovering == [] then w
    else RecoverAll(RecoverNext(w, readable, canClaim(w.recovering[0])), readable, canClaim)
  }

  // ----- load_active_orders -----

  // The statuses that load_active_orders lists as terminal, in the encoding that it uses.
  const EXCLUDED_VALUES: seq<Json> := [
    SerdeValue(Finalized), SerdeValue(Failed(Prepare)), SerdeValue(Failed(Fill)),
    SerdeValue(Failed(Claim)), SerdeValue(Failed(PostFill)), SerdeValue(Failed(PreClaim))]

  // QueryFilter::NotIn("status", ...) on the index entry of an order.
  predicate LoadedAsWritten(o: Order) {
    IndexValue(o.status) !in EXCLUDED_VALUES
  }

  // What the documentation of load_active_orders promises.
  predicate LoadedAsDocumented(o: Order) {
    !IsTerminal(o.status)
  }

  // The index and the filter encode statuses differently, so the filter excludes nothing: the
  // documented set is loaded exactly from stores that hold no terminal order.
  lemma LoadMatchesDocumentation(orders: map<OrderId, Order>)
    ensures forall id :: id in orders ==> LoadedAsWritten(orders[id])
    ensures (forall id :: id in orders ==> (LoadedAsWritten(orders[id]) <==> LoadedAsDocumented(orders[id])))
      <==> (forall id :: id in orders ==> !IsTerminal(orders[id].status))
  {
    forall id | id in orders
      ensures LoadedAsWritten(orders[id])
    {
      IndexValueNeverExcluded(orders[id].status);
    }
  }

  lemma IndexValueNeverExcluded(s: Status)
    ensures IndexValue(s) !in EXCLUDED_VALUES
  {
    var name := DisplayName(s);
    assert name[0] in {'C', 'P', 'E', 'S', 'F'};
    assert "finalized"[0] == 'f';
  }
}
