/**
 The order lifecycle as a state machine. A World is everything that the handlers read or write; a
 continuation is one thing in flight that will make a handler run. Each handler is one atomic step.
 */
module Protocol {
  import opened Wrappers
  import opened OrderTypes

  // What is in flight: events on the bus, transaction monitors and settlement monitors.
  datatype Cont =
    | Preparing(order: Order, params: ExecutionParams)
    | Executing(order: Order, params: ExecutionParams)
    | TxPending(id: OrderId, hash: Hash, tx: TxType, chain: ChainId)
    | TxMonitor(id: OrderId, hash: Hash, tx: TxType, chain: ChainId)
    | TxConfirmed(id: OrderId, hash: Hash, tx: TxType, success: bool)
    | TxFailed(id: OrderId, hash: Hash, tx: TxType)
    | PostFillReady(id: OrderId)
    | StartMonitoring(id: OrderId, hash: Hash)
    | SettlementMonitor(order: Order, hash: Hash)
    | SettlementPolling(order: Order, proof: FillProof)
    | PreClaimReady(id: OrderId)
    | ClaimReady(id: OrderId)
  {
    // The order that this continuation drives.
    function Key(): OrderId {
      match this
      case Preparing(o, _) => o.id
      case Executing(o, _) => o.id
      case SettlementMonitor(o, _) => o.id
      case SettlementPolling(o, _) => o.id
      case TxPending(i, _, _, _) => i
      case TxMonitor(i, _, _, _) => i
      case TxConfirmed(i, _, _, _) => i
      case TxFailed(i, _, _) => i
      case PostFillReady(i) => i
      case StartMonitoring(i, _) => i
      case PreClaimReady(i) => i
      case ClaimReady(i) => i
    }
  }

  // What the services outside the model answered while one handler ran.
  datatype Answer =
    | ServiceError                        // generating or delivering a transaction, or a callback, failed
    | NoTransaction                       // no transaction is needed at this stage
    | Sent(hash: Hash, chain: ChainId)    // a transaction was generated and delivered
    | Attested(proof: FillProof)          // get_attestation succeeded
    | CanClaim(ready: bool)               // the answer of can_claim
    | Done                                // nothing was asked, or a callback succeeded

  // Receipts on chain; true is a success. A receipt is final once it exists.
  type Receipts = map<(ChainId, Hash), bool>

  // What happened outside the solver so far: the receipts, every transaction ever delivered, and the
  // orders for which can_claim has said yes.
  datatype History = History(receipts: Receipts, sent: map<Hash, (OrderId, TxType)>, claimable: set<OrderId>)

  datatype World = World(
    orders: map<OrderId, Order>,
    intents: set<OrderId>,
    txIndex: map<Hash, OrderId>,
    bus: multiset<Cont>,
    past: History,
    // The rest of the list that a running recovery still has to reconcile.
    recovering: seq<OrderId>)

  const EMPTY_WORLD := World(map[], {}, map[], multiset{}, History(map[], map[], {}), [])

  // get_status: a receipt that does not exist yet is an error.
  function GetStatus(receipts: Receipts, hash: Hash, chain: ChainId): Option<bool> {
    if (chain, hash) in receipts then Some(receipts[(chain, hash)]) else None
  }

  ghost predicate Succeeded(receipts: Receipts, hash: Hash) {
    exists chain :: (chain, hash) in receipts && receipts[(chain, hash)]
  }

  function Publish(w: World, c: Cont): World {
    w.(bus := w.bus + multiset{c})
  }

  function PublishOption(w: World, c: Option<Cont>): World {
    if c.Some? then Publish(w, c.value) else w
  }

  function PutOrder(w: World, id: OrderId, o: Order): World {
    w.(orders := w.orders[id := o])
  }

  function Record(w: World, id: OrderId, t: TxType, h: Hash): World {
    w.(past := w.past.(sent := w.past.sent[h := (id, t)]))
  }

  function Index(w: World, id: OrderId, h: Hash): World {
    w.(txIndex := w.txIndex[h := id])
  }

  // A transaction of a stored order: delivered, its hash stored, mapped, and pending on the bus.
  function Send(w: World, id: OrderId, t: TxType, h: Hash, chain: ChainId): World
    requires id in w.orders
  {
    Publish(Index(PutOrder(Record(w, id, t, h), id, WithTx(w.orders[id], t, h)), id, h), TxPending(id, h, t, chain))
  }

  function DeclareClaimable(w: World, id: OrderId): World {
    w.(past := w.past.(claimable := w.past.claimable + {id}))
  }

  // ----- IntentHandler::handle -----

  datatype Intent = Intent(id: OrderId, standard: string, inputChains: seq<ChainId>, outputChains: seq<ChainId>)

  datatype IntentDecision =
    | Rejected             // validation failed
    | CostError            // the cost estimate failed
    | Unprofitable         // the profitability check failed; signet orders skip that check
    | ContextError         // the execution context could not be built
    | Skip
    | Defer
    | Execute(params: ExecutionParams)

  function OrderOf(i: Intent): Order {
    NewOrder(i.id, i.standard, i.inputChains, i.outputChains)
  }

  predicate Stores(d: IntentDecision) {
    d.ContextError? || d.Skip? || d.Defer? || d.Execute?
  }

  function OnIntent(w: World, i: Intent, d: IntentDecision): World {
    if i.id in w.intents then w
    else if d.Rejected? || d.CostError? then w.(intents := w.intents + {i.id})
    else if d.Unprofitable? then w  // the intent record is removed again
    else
      var stored := PutOrder(w.(intents := w.intents + {i.id}), i.id, OrderOf(i));
      if d.Execute? then Publish(stored, Preparing(OrderOf(i), d.params)) else stored
  }

  // ----- OrderHandler -----

  function OnPreparing(w: World, order: Order, params: ExecutionParams, a: Answer): World {
    match a
    case Sent(h, chain) =>
      var v := Index(Publish(Record(w, order.id, Prepare, h), TxPending(order.id, h, Prepare, chain)), order.id, h);
      if order.id !in w.orders then v
      else
        PutOrder(v, order.id, w.orders[order.id].(executionParams := Some(params), status := Status.Pending,
                                                  prepareTx := Some(h)))
    case NoTransaction =>
      if order.id !in w.orders then w
      else
        var o := w.orders[order.id].(executionParams := Some(params), status := Status.Executing);
        Publish(PutOrder(w, order.id, o), Cont.Executing(order, params))
    case _ => w
  }

  function OnExecuting(w: World, order: Order, a: Answer): World {
    match a
    case Sent(h, chain) =>
      if order.id !in w.orders then Publish(Record(w, order.id, Fill, h), TxPending(order.id, h, Fill, chain))
      else
        var v := Send(w, order.id, Fill, h, chain);
        if order.standard == "signet" then v.(intents := v.intents - {order.id}) else v
    case _ => w
  }

  // ----- TransactionMonitor and TransactionHandler -----

  // One poll of the monitor; a receipt that does not exist keeps it polling.
  function OnTxMonitor(w: World, id: OrderId, h: Hash, t: TxType, chain: ChainId): World {
    var status := GetStatus(w.past.receipts, h, chain);
    Publish(w, if status.None? then TxMonitor(id, h, t, chain)
               else if status.value then TxConfirmed(id, h, t, true)
               else TxFailed(id, h, t))
  }

  function OnConfirmed(w: World, id: OrderId, h: Hash, t: TxType, success: bool, a: Answer): World {
    if !success then Publish(w, TxFailed(id, h, t))
    else if (t.PostFill? || t.PreClaim?) && (id !in w.orders || a.ServiceError?) then w
    else if h !in w.txIndex || w.txIndex[h] !in w.orders then w
    else OnConfirmedFor(w, w.txIndex[h], h, t)
  }

  // The five per-type handlers, once the transaction index has named the order.
  function OnConfirmedFor(w: World, id: OrderId, h: Hash, t: TxType): World
    requires id in w.orders
  {
    var o := w.orders[id];
    match t
    case Prepare =>
      if o.executionParams.None? then w
      else Advanced(w, id, Status.Executing, Some(Cont.Executing(o, o.executionParams.value)))
    case Fill => Advanced(w, id, Executed, Some(PostFillReady(id)))
    case PostFill =>
      Advanced(w, id, PostFilled, if o.fillTx.Some? then Some(StartMonitoring(id, o.fillTx.value)) else None)
    case PreClaim => Advanced(w, id, PreClaimed, Some(ClaimReady(id)))
    case Claim =>
      // Not guarded by the table. The Completed event that follows has no consumer.
      PutOrder(w, id, o.(claimTx := Some(h), status := Finalized))
  }

  // A guarded status write; an event follows only if the table allows the write.
  function Advanced(w: World, id: OrderId, s: Status, next: Option<Cont>): World
    requires id in w.orders
  {
    var o := w.orders[id];
    if !IsValidTransition(o.status, s) then w else PublishOption(PutOrder(w, id, o.(status := s)), next)
  }

  function OnFailed(w: World, id: OrderId, t: TxType): World {
    if id !in w.orders then w else PutOrder(w, id, Transitioned(w.orders[id], Failed(t)))
  }

  // ----- SettlementHandler and SettlementMonitor -----

  function OnPostFillReady(w: World, id: OrderId, a: Answer): World {
    if id !in w.orders || w.orders[id].fillTx.None? || w.orders[id].outputChains == [] then w
    else
      var o := w.orders[id];
      if GetStatus(w.past.receipts, o.fillTx.value, o.outputChains[0]).None? then w
      else
        match a
        case Sent(h, chain) => Send(w, id, PostFill, h, chain)
        case NoTransaction => Publish(w, StartMonitoring(id, o.fillTx.value))
        case _ => w
  }

  function OnStartMonitoring(w: World, id: OrderId, h: Hash): World {
    if id !in w.orders then w else Publish(w, SettlementMonitor(w.orders[id], h))
  }

  // The monitor first fetches and stores the fill proof ...
  function OnAttestation(w: World, order: Order, a: Answer): World {
    if !a.Attested? || order.id !in w.orders then w
    else
      var v := PutOrder(w, order.id, w.orders[order.id].(fillProof := Some(a.proof)));
      Publish(v, SettlementPolling(order, a.proof))
  }

  // ... and then polls can_claim. The status write is guarded and its failure is ignored.
  function OnPoll(w: World, order: Order, proof: FillProof, a: Answer): World {
    if a != CanClaim(true) then Publish(w, SettlementPolling(order, proof))
    else
      var v := DeclareClaimable(w, order.id);
      var u := if order.id in w.orders then PutOrder(v, order.id, Transitioned(w.orders[order.id], Settled)) else v;
      Publish(u, PreClaimReady(order.id))
  }

  function OnPreClaimReady(w: World, id: OrderId, a: Answer): World {
    if id !in w.orders || w.orders[id].fillProof.None? then w
    else
      match a
      case Sent(h, chain) => Send(w, id, PreClaim, h, chain)
      case NoTransaction => Publish(w, ClaimReady(id))
      case _ => w
  }

  // One turn of the loop in process_claim_batch.
  function OnClaimReady(w: World, id: OrderId, a: Answer): World {
    if id !in w.orders || w.orders[id].fillProof.None? || !a.Sent? then w
    else Send(w, id, Claim, a.hash, a.chain)
  }

  // The handler that the engine runs for a continuation taken off the bus.
  function Handle(w: World, c: Cont, a: Answer): World {
    match c
    case Preparing(o, params) => OnPreparing(w, o, params, a)
    case Executing(o, _) => OnExecuting(w, o, a)
    case TxPending(id, h, t, chain) => Publish(w, TxMonitor(id, h, t, chain))
    case TxMonitor(id, h, t, chain) => OnTxMonitor(w, id, h, t, chain)
    case TxConfirmed(id, h, t, success) => OnConfirmed(w, id, h, t, success, a)
    case TxFailed(id, _, t) => OnFailed(w, id, t)
    case PostFillReady(id) => OnPostFillReady(w, id, a)
    case StartMonitoring(id, h) => OnStartMonitoring(w, id, h)
    case SettlementMonitor(o, _) => OnAttestation(w, o, a)
    case SettlementPolling(o, proof) => OnPoll(w, o, proof, a)
    case PreClaimReady(id) => OnPreClaimReady(w, id, a)
    case ClaimReady(id) => OnClaimReady(w, id, a)
  }
}
