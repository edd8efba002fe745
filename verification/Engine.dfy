/**
 The handlers as they run: each method works on the stored orders, the transaction index and the bus one
 statement at a time, and is proved to move the world exactly as the protocol says.
 */
module Engine {
  import opened Wrappers
  import opened OrderTypes
  import opened OrderStore
  import opened Protocol
  import Dispatch
  import opened Recovery
  import opened Runs
  import opened Invariants
  import opened RecoveryTheorems
  import opened Outcomes

  datatype RecoveryReport = RecoveryReport(totalOrders: nat, orphanedIntents: nat, reconciledOrders: nat)

  // One turn of the loop in process_claim_batch ends the whole batch when it fails.
  predicate ClaimFails(w: World, id: OrderId, a: Answer) {
    id !in w.orders || w.orders[id].fillProof.None? || !a.Sent?
  }

  function ClaimBatch(w: World, batch: seq<OrderId>, answers: seq<Answer>): World
    requires |answers| == |batch|
    decreases |batch|
  {
    if batch == [] || ClaimFails(w, batch[0], answers[0]) then w
    else ClaimBatch(OnClaimReady(w, batch[0], answers[0]), batch[1..], answers[1..])
  }

  function Claims(ids: seq<OrderId>): multiset<Cont> {
    if ids == [] then multiset{} else multiset{ClaimReady(ids[0])} + Claims(ids[1..])
  }

  // The same claims as separate protocol steps; after a failure the remaining events are dropped.
  function ClaimSteps(w: World, ids: seq<OrderId>, answers: seq<Answer>): World
    requires |answers| == |ids|
    decreases |ids|
  {
    if ids == [] then w
    else if ClaimFails(w, ids[0], answers[0]) then w.(bus := w.bus - Claims(ids))
    else ClaimSteps(Next(w, Label.React(ClaimReady(ids[0]), answers[0])), ids[1..], answers[1..])
  }

  // Claiming in batches, of any size, is claiming one order after the other.
  lemma {:induction false} BatchRefinesSteps(w: World, ids: seq<OrderId>, answers: seq<Answer>)
    requires |answers| == |ids| && Claims(ids) <= w.bus
    ensures ClaimSteps(w, ids, answers) == ClaimBatch(w.(bus := w.bus - Claims(ids)), ids, answers)
    decreases |ids|
  {
    if ids == [] {
      assert w.bus - Claims(ids) == w.bus;
    } else if !ClaimFails(w, ids[0], answers[0]) {
      OneClaimOfBatch(w, ids[0], answers[0], Claims(ids[1..]));
      BatchRefinesSteps(Next(w, Label.React(ClaimReady(ids[0]), answers[0])), ids[1..], answers[1..]);
    }
  }

  lemma OneClaimOfBatch(w: World, id: OrderId, a: Answer, rest: multiset<Cont>)
    requires !ClaimFails(w, id, a) && multiset{ClaimReady(id)} + rest <= w.bus
    ensures var v := OnClaimReady(w.(bus := w.bus - multiset{ClaimReady(id)}), id, a);
      && rest <= v.bus
      && v.(bus := v.bus - rest) == OnClaimReady(w.(bus := w.bus - (multiset{ClaimReady(id)} + rest)), id, a)
  {
    var c, t := multiset{ClaimReady(id)}, multiset{TxPending(id, a.hash, Claim, a.chain)};
    assert (w.bus - c) + t - rest == (w.bus - (c + rest)) + t;
  }

  // How many orders of the list recovery can reconcile: those whose chain is known.
  function ReconciledCount(w: World, readable: Receipts, canClaim: OrderId -> bool): nat
    decreases |w.recovering|
  {
    if w.recovering == [] then 0
    else
      var id := w.recovering[0];
      (if id in w.orders && ReconcileWithBlockchain(w.orders[id], readable).Ok? then 1 else 0)
      + ReconciledCount(RecoverNext(w, readable, canClaim(id)), readable, canClaim)
  }

  // Each listed order counts once, if the chain of its latest transaction is known.
  lemma {:induction false} ReconciledCountIs(w: World, readable: Receipts, canClaim: OrderId -> bool)
    requires Distinct(w.recovering) && forall id :: id in w.recovering ==> id in w.orders
    requires StoredUnderOwnId(w)
    ensures ReconciledCount(w, readable, canClaim)
      == |set id | id in w.recovering && LatestChainKnown(w.orders[id])|
    decreases |w.recovering|
  {
    if w.recovering != [] {
      var v := RecoverNext(w, readable, canClaim(w.recovering[0]));
      HeadAndRest(w.recovering);
      OneTurn(w, v, readable, canClaim);
      ReconciledCountIs(v, readable, canClaim);
      CountedNext(w, v, readable, canClaim);
    }
  }

  lemma CountedNext(w: World, v: World, readable: Receipts, canClaim: OrderId -> bool)
    requires w.recovering != [] && w.recovering[0] in w.orders && Turned(w, v, readable, canClaim)
    requires w.recovering[0] !in v.recovering && forall k :: k in v.recovering ==> k in w.orders
    requires forall k :: k in w.recovering <==> k == w.recovering[0] || k in v.recovering
    ensures v.recovering == w.recovering[1..] && forall k :: k in v.recovering ==> k in v.orders
    ensures |set k | k in w.recovering && LatestChainKnown(w.orders[k])|
      == |set k | k in v.recovering && LatestChainKnown(v.orders[k])|
         + if ReconcileWithBlockchain(w.orders[w.recovering[0]], readable).Ok? then 1 else 0
  {
    var id := w.recovering[0];
    assert v.orders == w.orders[id := v.orders[id]];
    CountedRest(w.orders, v.orders, id, w.recovering, v.recovering);
    ReconciledIffKnown(w.orders[id], readable);
  }

  lemma CountedRest(before: map<OrderId, Order>, after: map<OrderId, Order>, id: OrderId, ids: seq<OrderId>,
                    rest: seq<OrderId>)
    requires id in before && id !in rest && forall k :: k in rest ==> k in before && k in after && after[k] == before[k]
    requires forall k :: k in ids <==> k == id || k in rest
    ensures |set k | k in ids && LatestChainKnown(before[k])|
      == |set k | k in rest && LatestChainKnown(after[k])| + if LatestChainKnown(before[id]) then 1 else 0
  {
    var all := set k | k in ids && LatestChainKnown(before[k]);
    var others := set k | k in rest && LatestChainKnown(after[k]);
    assert all == others + if LatestChainKnown(before[id]) then {id} else {};
  }

  lemma ReconciledIffKnown(o: Order, readable: Receipts)
    ensures ReconcileWithBlockchain(o, readable).Ok? <==> LatestChainKnown(o)
  {
  }

  class Solver {
    const store: OrderStateMachine
    var txIndex: map<Hash, OrderId>
    var intents: set<OrderId>
    var bus: multiset<Cont>
    // The chain and the delivery service, as the solver has met them so far.
    var past: History
    var recovering: seq<OrderId>

    ghost predicate Valid()
      reads this, store
    {
      store.Valid()
    }

    ghost function TheWorld(): World
      reads this, store
    {
      World(store.orders, intents, txIndex, bus, past, recovering)
    }

    constructor ()
      ensures Valid() && TheWorld() == EMPTY_WORLD
      ensures fresh(store)
    {
      store := new OrderStateMachine();
      txIndex, intents, bus, recovering := map[], {}, multiset{}, [];
      past := History(map[], map[], {});
    }

    method Emit(c: Cont)
      modifies this`bus
      ensures bus == old(bus) + multiset{c}
    {
      bus := bus + multiset{c};
    }

    method Deliver(id: OrderId, t: TxType, h: Hash)
      modifies this`past
      ensures past == old(past).(sent := old(past.sent)[h := (id, t)])
    {
      past := past.(sent := past.sent[h := (id, t)]);
    }

    method StoreMapping(h: Hash, id: OrderId)
      modifies this`txIndex
      ensures txIndex == old(txIndex)[h := id]
    {
      txIndex := txIndex[h := id];
    }

    // ----- IntentHandler -----

    method HandleIntent(i: Intent, d: IntentDecision)
      requires Valid()
      modifies this, store
      ensures Valid() && TheWorld() == OnIntent(old(TheWorld()), i, d)
    {
      if i.id in intents {
        return;
      }
      intents := intents + {i.id};
      if d.Rejected? || d.CostError? {
        return;
      }
      var order := OrderOf(i);
      if d.Unprofitable? {
        intents := intents - {i.id};
        return;
      }
      store.StoreOrder(order);
      if d.Execute? {
        Emit(Preparing(order, d.params));
      }
    }

    // ----- OrderHandler -----

    method HandlePreparation(order: Order, params: ExecutionParams, a: Answer)
      requires Valid()
      modifies this, store
      ensures Valid() && TheWorld() == OnPreparing(old(TheWorld()), order, params, a)
    {
      if a.Sent? {
        PrepareSent(order, params, a.hash, a.chain);
      } else if a.NoTransaction? {
        PrepareSkipped(order, params);
      }
    }

    method PrepareSent(order: Order, params: ExecutionParams, h: Hash, chain: ChainId)
      requires Valid()
      modifies this, store
      ensures Valid() && TheWorld() == OnPreparing(old(TheWorld()), order, params, Sent(h, chain))
    {
      Deliver(order.id, Prepare, h);
      Emit(TxPending(order.id, h, Prepare, chain));
      StoreMapping(h, order.id);
      var r := store.UpdateOrderWith(order.id, (o: Order) =>
        o.(executionParams := Some(params), status := Pending, prepareTx := Some(h)));
    }

    method PrepareSkipped(order: Order, params: ExecutionParams)
      requires Valid()
      modifies this, store
      ensures Valid() && TheWorld() == OnPreparing(old(TheWorld()), order, params, NoTransaction)
    {
      var r := store.UpdateOrderWith(order.id, (o: Order) =>
        o.(executionParams := Some(params), status := Status.Executing));
      if r.Ok? {
        Emit(Cont.Executing(order, params));
      }
    }

    method HandleExecution(order: Order, a: Answer)
      requires Valid()
      modifies this, store
      ensures Valid() && TheWorld() == OnExecuting(old(TheWorld()), order, a)
    {
      if !a.Sent? {
        return;
      }
      var stored := SendFill(order.id, a.hash, a.chain);
      if stored && order.standard == "signet" {
        intents := intents - {order.id};
      }
    }

    method SendFill(id: OrderId, h: Hash, chain: ChainId) returns (stored: bool)
      requires Valid()
      modifies this, store
      ensures Valid() && stored == (id in old(store.orders))
      ensures TheWorld() == if stored then Send(old(TheWorld()), id, Fill, h, chain)
                            else Publish(Record(old(TheWorld()), id, Fill, h), TxPending(id, h, Fill, chain))
    {
      Deliver(id, Fill, h);
      Emit(TxPending(id, h, Fill, chain));
      var r := store.SetTransactionHash(id, h, Fill);
      stored := r.Ok?;
      if stored {
        StoreMapping(h, id);
      }
    }

    // ----- TransactionMonitor and TransactionHandler -----

    method PollTransaction(id: OrderId, h: Hash, t: TxType, chain: ChainId)
      requires Valid()
      modifies this, store
      ensures Valid() && TheWorld() == OnTxMonitor(old(TheWorld()), id, h, t, chain)
    {
      var status := GetStatus(past.receipts, h, chain);
      if status.None? {
        Emit(TxMonitor(id, h, t, chain));
      } else if status.value {
        Emit(TxConfirmed(id, h, t, true));
      } else {
        Emit(TxFailed(id, h, t));
      }
    }

    method HandleConfirmed(id: OrderId, h: Hash, t: TxType, success: bool, a: Answer)
      requires Valid()
      modifies this, store
      ensures Valid() && TheWorld() == OnConfirmed(old(TheWorld()), id, h, t, success, a)
    {
      if !success {
        Emit(TxFailed(id, h, t));
        return;
      }
      if t.PostFill? || t.PreClaim? {
        var found := store.GetOrder(id);
        if found.Err? || a.ServiceError? {
          return;
        }
      }
      // Each handler looks the order up by the transaction hash.
      if h !in txIndex {
        return;
      }
      var owner := txIndex[h];
      var found := store.GetOrder(owner);
      if found.Err? {
        return;
      }
      match t
      case Prepare => HandlePrepareConfirmed(owner, found.value, h);
      case Fill => HandleFillConfirmed(owner, h);
      case PostFill => HandlePostFillConfirmed(owner, found.value, h);
      case PreClaim => HandlePreClaimConfirmed(owner, h);
      case Claim => HandleClaimConfirmed(owner, h);
    }

    method HandlePrepareConfirmed(id: OrderId, order: Order, h: Hash)
      requires Valid() && id in store.orders && order == store.orders[id]
      modifies this, store
      ensures Valid() && TheWorld() == OnConfirmedFor(old(TheWorld()), id, h, Prepare)
    {
      if order.executionParams.None? {
        return;
      }
      var r := store.TransitionOrderStatus(id, Status.Executing);
      if r.Ok? {
        Emit(Cont.Executing(order, order.executionParams.value));
      } else {
        assert store.orders == old(store.orders);
      }
    }

    method HandleFillConfirmed(id: OrderId, h: Hash)
      requires Valid() && id in store.orders
      modifies this, store
      ensures Valid() && TheWorld() == OnConfirmedFor(old(TheWorld()), id, h, Fill)
    {
      var r := store.TransitionOrderStatus(id, Executed);
      if r.Ok? {
        Emit(PostFillReady(id));
      } else {
        assert store.orders == old(store.orders);
      }
    }

    method HandlePostFillConfirmed(id: OrderId, order: Order, h: Hash)
      requires Valid() && id in store.orders && order == store.orders[id]
      modifies this, store
      ensures Valid() && TheWorld() == OnConfirmedFor(old(TheWorld()), id, h, PostFill)
    {
      var r := store.TransitionOrderStatus(id, PostFilled);
      if r.Err? {
        assert store.orders == old(store.orders);
        return;
      }
      if order.fillTx.Some? {
        Emit(StartMonitoring(id, order.fillTx.value));
      }
    }

    method HandlePreClaimConfirmed(id: OrderId, h: Hash)
      requires Valid() && id in store.orders
      modifies this, store
      ensures Valid() && TheWorld() == OnConfirmedFor(old(TheWorld()), id, h, PreClaim)
    {
      var r := store.TransitionOrderStatus(id, PreClaimed);
      if r.Ok? {
        Emit(ClaimReady(id));
      } else {
        assert store.orders == old(store.orders);
      }
    }

    method HandleClaimConfirmed(id: OrderId, h: Hash)
      requires Valid() && id in store.orders
      modifies this, store
      ensures Valid() && TheWorld() == OnConfirmedFor(old(TheWorld()), id, h, Claim)
    {
      var r := store.UpdateOrderWith(id, (o: Order) => o.(claimTx := Some(h), status := Finalized));
    }

    method HandleFailed(id: OrderId, t: TxType)
      requires Valid()
      modifies this, store
      ensures Valid() && TheWorld() == OnFailed(old(TheWorld()), id, t)
    {
      var r := store.TransitionOrderStatus(id, Failed(t));
    }

    // ----- SettlementHandler and SettlementMonitor -----

    // The transactions that are published last.
    method SendStage(id: OrderId, t: TxType, h: Hash, chain: ChainId)
      requires Valid() && id in store.orders
      modifies this, store
      ensures Valid() && TheWorld() == Send(old(TheWorld()), id, t, h, chain)
    {
      Deliver(id, t, h);
      var r := store.SetTransactionHash(id, h, t);
      StoreMapping(h, id);
      Emit(TxPending(id, h, t, chain));
    }

    method HandlePostFillReady(id: OrderId, a: Answer)
      requires Valid()
      modifies this, store
      ensures Valid() && TheWorld() == OnPostFillReady(old(TheWorld()), id, a)
    {
      var found := store.GetOrder(id);
      if found.Err? || found.value.fillTx.None? || found.value.outputChains == [] {
        return;
      }
      var order := found.value;
      var receipt := GetStatus(past.receipts, order.fillTx.value, order.outputChains[0]);
      if receipt.None? {
        return;
      }
      if a.Sent? {
        SendStage(id, PostFill, a.hash, a.chain);
      } else if a.NoTransaction? {
        Emit(StartMonitoring(id, order.fillTx.value));
      }
    }

    method SpawnSettlementMonitor(id: OrderId, h: Hash)
      requires Valid()
      modifies this, store
      ensures Valid() && TheWorld() == OnStartMonitoring(old(TheWorld()), id, h)
    {
      var found := store.GetOrder(id);
      if found.Ok? {
        Emit(SettlementMonitor(found.value, h));
      }
    }

    method StoreAttestation(order: Order, a: Answer)
      requires Valid()
      modifies this, store
      ensures Valid() && TheWorld() == OnAttestation(old(TheWorld()), order, a)
    {
      if !a.Attested? {
        return;
      }
      var r := store.SetFillProof(order.id, a.proof);
      if r.Ok? {
        Emit(SettlementPolling(order, a.proof));
      }
    }

    method PollClaimReadiness(order: Order, proof: FillProof, a: Answer)
      requires Valid()
      modifies this, store
      ensures Valid() && TheWorld() == OnPoll(old(TheWorld()), order, proof, a)
    {
      if a != CanClaim(true) {
        Emit(SettlementPolling(order, proof));
        return;
      }
      past := past.(claimable := past.claimable + {order.id});
      var r := store.TransitionOrderStatus(order.id, Settled);
      Emit(PreClaimReady(order.id));
    }

    method HandlePreClaimReady(id: OrderId, a: Answer)
      requires Valid()
      modifies this, store
      ensures Valid() && TheWorld() == OnPreClaimReady(old(TheWorld()), id, a)
    {
      var found := store.GetOrder(id);
      if found.Err? || found.value.fillProof.None? {
        return;
      }
      if a.Sent? {
        SendStage(id, PreClaim, a.hash, a.chain);
      } else if a.NoTransaction? {
        Emit(ClaimReady(id));
      }
    }

    method ClaimOne(id: OrderId, a: Answer) returns (ok: bool)
      requires Valid()
      modifies this, store
      ensures Valid() && TheWorld() == OnClaimReady(old(TheWorld()), id, a)
      ensures ok == !ClaimFails(old(TheWorld()), id, a)
    {
      var found := store.GetOrder(id);
      if found.Err? || found.value.fillProof.None? || !a.Sent? {
        return false;
      }
      Deliver(id, Claim, a.hash);
      Emit(TxPending(id, a.hash, Claim, a.chain));
      var r := store.SetTransactionHash(id, a.hash, Claim);
      StoreMapping(a.hash, id);
      return true;
    }

    // The batch is drained in order; the first failure drops what is left of it.
    method ProcessClaimBatch(batch: seq<OrderId>, answers: seq<Answer>)
      requires Valid() && |answers| == |batch|
      modifies this, store
      ensures Valid() && TheWorld() == ClaimBatch(old(TheWorld()), batch, answers)
    {
      var i := 0;
      ghost var start, now := TheWorld(), TheWorld();
      while i < |batch|
        invariant 0 <= i <= |batch| && Valid() && TheWorld() == now
        invariant ClaimBatch(now, batch[i..], answers[i..]) == ClaimBatch(start, batch, answers)
      {
        BatchGoesOn(now, batch, answers, i);
        var ok := ClaimOne(batch[i], answers[i]);
        if !ok {
          return;
        }
        now := TheWorld();
        i := i + 1;
      }
    }

    lemma BatchGoesOn(w: World, batch: seq<OrderId>, answers: seq<Answer>, i: nat)
      requires |answers| == |batch| && i < |batch|
      ensures var next := OnClaimReady(w, batch[i], answers[i]);
        if ClaimFails(w, batch[i], answers[i]) then next == w && ClaimBatch(w, batch[i..], answers[i..]) == w
        else ClaimBatch(w, batch[i..], answers[i..]) == ClaimBatch(next, batch[i + 1..], answers[i + 1..])
    {
      assert batch[i..][1..] == batch[i + 1..] && answers[i..][1..] == answers[i + 1..];
    }

    // One continuation is taken off the bus and its handler runs. With a batch size of one, every
    // ClaimReady event makes a batch of its own.
    method React(c: Cont, a: Answer)
      requires Valid() && c in bus
      modifies this, store
      ensures Valid()
      ensures TheWorld() == Handle(old(TheWorld()).(bus := old(bus) - multiset{c}), c, a)
    {
      bus := bus - multiset{c};
      match c
      case Preparing(order, params) => HandlePreparation(order, params, a);
      case Executing(order, _) => HandleExecution(order, a);
      case TxPending(_, _, _, _) => ReactToDelivery(c, a);
      case TxMonitor(_, _, _, _) => ReactToDelivery(c, a);
      case TxConfirmed(_, _, _, _) => ReactToDelivery(c, a);
      case TxFailed(_, _, _) => ReactToDelivery(c, a);
      case _ => ReactToSettlement(c, a);
    }

    method ReactToDelivery(c: Cont, a: Answer)
      requires Valid() && (c.TxPending? || c.TxMonitor? || c.TxConfirmed? || c.TxFailed?)
      modifies this, store
      ensures Valid() && TheWorld() == Handle(old(TheWorld()), c, a)
    {
      match c
      case TxPending(id, h, t, chain) => Emit(TxMonitor(id, h, t, chain));
      case TxMonitor(id, h, t, chain) => PollTransaction(id, h, t, chain);
      case TxConfirmed(id, h, t, success) => HandleConfirmed(id, h, t, success, a);
      case TxFailed(id, _, t) => HandleFailed(id, t);
    }

    method ReactToSettlement(c: Cont, a: Answer)
      requires Valid() && !(c.TxPending? || c.TxMonitor? || c.TxConfirmed? || c.TxFailed?)
      requires !c.Preparing? && !c.Executing?
      modifies this, store
      ensures Valid() && TheWorld() == Handle(old(TheWorld()), c, a)
    {
      match c
      case PostFillReady(id) => HandlePostFillReady(id, a);
      case StartMonitoring(id, h) => SpawnSettlementMonitor(id, h);
      case SettlementMonitor(order, _) => StoreAttestation(order, a);
      case SettlementPolling(order, proof) => PollClaimReadiness(order, proof, a);
      case PreClaimReady(id) => HandlePreClaimReady(id, a);
      case ClaimReady(id) => ClaimReadyBatch(id, a);
    }

    method ClaimReadyBatch(id: OrderId, a: Answer)
      requires Valid()
      modifies this, store
      ensures Valid() && TheWorld() == OnClaimReady(old(TheWorld()), id, a)
    {
      var batch := [id];
      assert |batch| >= Dispatch.CLAIM_BATCH;
      ProcessClaimBatch(batch, [a]);
      assert batch[1..] == [];
    }

    // ----- RecoveryService -----

    method CorrectState(order: Order, result: ReconcileResult) returns (corrected: Order)
      requires Valid() && order.id in store.orders && store.orders[order.id] == order
      modifies this, store
      ensures Valid() && corrected == EnsureCorrectState(order, result)
      ensures TheWorld() == PutOrder(old(TheWorld()), order.id, corrected)
    {
      var target := TargetStatus(order, result);
      corrected := order;
      if order.status != target {
        var r := store.TransitionOrderStatus(order.id, target);
        if r.Ok? {
          corrected := r.value;
        }
      } else {
        assert store.orders == store.orders[order.id := order];
      }
    }

    method TransitionThroughStates(id: OrderId, states: seq<Status>)
      requires Valid() && id in store.orders
      modifies this, store
      ensures Valid()
      ensures TheWorld() == PutOrder(old(TheWorld()), id, Through(old(store.orders[id]), states))
    {
      ghost var before, o := TheWorld(), store.orders[id];
      var i := 0;
      assert store.orders == store.orders[id := o];
      while i < |states|
        invariant 0 <= i <= |states| && Valid()
        invariant TheWorld() == PutOrder(before, id, o)
        invariant Through(o, states[i..]) == Through(before.orders[id], states)
      {
        ThroughNext(o, states, i);
        var ok := TransitionTo(id, states[i]);
        if !ok {
          return;
        }
        PutTwice(before, id, o, o.(status := states[i]));
        o := o.(status := states[i]);
        i := i + 1;
      }
    }

    lemma PutTwice(w: World, id: OrderId, first: Order, second: Order)
      ensures PutOrder(w, id, first).orders[id] == first
      ensures PutOrder(PutOrder(w, id, first), id, second) == PutOrder(w, id, second)
    {
      assert w.orders[id := first][id := second] == w.orders[id := second];
    }

    method TransitionTo(id: OrderId, status: Status) returns (ok: bool)
      requires Valid() && id in store.orders
      modifies this, store
      ensures Valid() && ok == IsValidTransition(old(store.orders[id].status), status)
      ensures TheWorld() == PutOrder(old(TheWorld()), id, Transitioned(old(store.orders[id]), status))
    {
      var r := store.TransitionOrderStatus(id, status);
      ok := r.Ok?;
    }

    lemma ThroughNext(o: Order, states: seq<Status>, i: nat)
      requires i < |states|
      ensures Through(o, states[i..]) ==
        if IsValidTransition(o.status, states[i]) then Through(o.(status := states[i]), states[i + 1..]) else o
    {
      assert states[i..][1..] == states[i + 1..];
    }

    method PublishMonitoring(order: Order)
      modifies this`bus
      ensures TheWorld() == PublishOption(old(TheWorld()), MonitorAgain(order))
    {
      if order.fillTx.Some? {
        Emit(StartMonitoring(order.id, order.fillTx.value));
      }
    }

    // The proof is there and can_claim has said yes, or the settlement monitor starts again.
    method PublishClaim(order: Order, claimable: bool, ready: Cont)
      modifies this`bus, this`past
      ensures TheWorld() ==
        if claimable then Publish(DeclareClaimable(old(TheWorld()), order.id), ready)
        else PublishOption(old(TheWorld()), MonitorAgain(order))
    {
      if claimable {
        past := past.(claimable := past.claimable + {order.id});
        Emit(ready);
      } else {
        PublishMonitoring(order);
      }
    }

    method PublishRecoveryEvent(loaded: Order, result: ReconcileResult, canClaim: bool)
      requires Valid() && loaded.id in store.orders && store.orders[loaded.id] == loaded
      modifies this, store
      ensures Valid()
      ensures var (o, next) := PublishFor(EnsureCorrectState(loaded, result), result, canClaim);
        TheWorld() == PublishOption(PutOrder(
          if Asks(result) && canClaim then DeclareClaimable(old(TheWorld()), loaded.id) else old(TheWorld()),
          loaded.id, o), next)
    {
      ghost var before := TheWorld();
      var order := CorrectState(loaded, result);
      PublishEvent(order, result, canClaim);
      WrittenTwice(before, loaded.id, order, PublishFor(order, result, canClaim), Asks(result) && canClaim);
    }

    // The later record is what counts.
    lemma WrittenTwice(w: World, id: OrderId, corrected: Order, published: (Order, Option<Cont>), yes: bool)
      ensures
        var v := PutOrder(w, id, corrected);
        var (o, next) := published;
        PublishOption(PutOrder(if yes then DeclareClaimable(v, id) else v, id, o), next)
          == PublishOption(PutOrder(if yes then DeclareClaimable(w, id) else w, id, o), next)
    {
      PutTwice(w, id, corrected, published.0);
    }

    // The event for a record whose status has been corrected.
    method PublishEvent(order: Order, result: ReconcileResult, canClaim: bool)
      requires Valid() && order.id in store.orders && store.orders[order.id] == order
      modifies this, store
      ensures Valid()
      ensures var (o, next) := PublishFor(order, result, canClaim);
        TheWorld() == PublishOption(PutOrder(
          if Asks(result) && canClaim then DeclareClaimable(old(TheWorld()), order.id) else old(TheWorld()),
          order.id, o), next)
    {
      if result.HasFailed? {
        FailOrder(order.id, result.tx);
      } else if result.IsFinalized? {
        TransitionThroughStates(order.id, PathToFinalized(order.status));
      } else {
        assert store.orders == store.orders[order.id := order];
        PublishNext(order, result, canClaim);
      }
    }

    // The event with which an order goes on.
    method PublishNext(order: Order, result: ReconcileResult, canClaim: bool)
      requires !result.HasFailed? && !result.IsFinalized?
      modifies this`bus, this`past
      ensures TheWorld() == PublishOption(
        if Asks(result) && canClaim then DeclareClaimable(old(TheWorld()), order.id) else old(TheWorld()),
        PublishFor(order, result, canClaim).1)
    {
      if result.NeedsPreClaim? {
        PublishClaim(order, result.proof.Some? && canClaim, PreClaimReady(order.id));
      } else if result.NeedsClaim? {
        PublishClaim(order, result.proof.Some? && canClaim, ClaimReady(order.id));
      } else {
        PublishWork(order, result);
      }
    }

    // The events that ask nothing first.
    method PublishWork(order: Order, result: ReconcileResult)
      requires result.NeedsExecution? || result.NeedsFill? || result.NeedsPostFill? || result.NeedsMonitoring?
      modifies this`bus
      ensures TheWorld() == PublishOption(old(TheWorld()), PublishFor(order, result, false).1)
    {
      match result
      case NeedsExecution => PublishExecution(order);
      case NeedsFill => PublishExecution(order);
      case NeedsPostFill => Emit(PostFillReady(order.id));
      case NeedsMonitoring => PublishMonitoring(order);
    }

    method FailOrder(id: OrderId, t: TxType)
      requires Valid() && id in store.orders
      modifies this, store
      ensures Valid() && TheWorld() == PutOrder(old(TheWorld()), id, Transitioned(old(store.orders[id]), Failed(t)))
    {
      var ok := TransitionTo(id, Failed(t));
    }

    method PublishExecution(order: Order)
      modifies this`bus
      ensures TheWorld() == PublishOption(old(TheWorld()),
        if order.executionParams.Some? then Some(Cont.Executing(order, order.executionParams.value)) else None)
    {
      if order.executionParams.Some? {
        Emit(Cont.Executing(order, order.executionParams.value));
      }
    }

    // The ids that the NotIn query on the status index selects, in the order in which it yields them.
    method LoadActiveOrders() returns (loaded: seq<OrderId>)
      requires Valid()
      ensures Distinct(loaded)
      ensures forall id :: id in loaded <==> id in store.orders && LoadedAsWritten(store.orders[id])
    {
      loaded := store.IdsNotIn(EXCLUDED_VALUES);
    }

    // The stored intents without an order are handed back; the records of the others are removed.
    method RecoverOrphanedIntents(seen: set<OrderId>) returns (orphaned: set<OrderId>)
      requires Valid()
      modifies this`intents
      ensures orphaned == set id | id in seen && id !in store.orders
      ensures intents == old(intents) - (set id | id in seen && id in store.orders)
    {
      orphaned := {};
      var rest := seen;
      while rest != {}
        invariant rest <= seen
        invariant orphaned == set id | id in seen - rest && id !in store.orders
        invariant intents == old(intents) - (set id | id in seen - rest && id in store.orders)
        decreases rest
      {
        var id :| id in rest;
        if id in store.orders {
          intents := intents - {id};
        } else {
          orphaned := orphaned + {id};
        }
        rest := rest - {id};
      }
    }

    // A new process starts with an empty bus; `seen` is what the intent query returned, `readable` the
    // receipts that the delivery service can read. No active order is lost.
    method RecoverState(readable: Receipts, canClaim: OrderId -> bool, seen: set<OrderId>)
      returns (report: RecoveryReport, orphaned: set<OrderId>, loaded: seq<OrderId>)
      requires Valid() && bus == multiset{}
      requires forall id :: id in store.orders ==> store.orders[id].id == id
      modifies this, store
      ensures Valid() && IsWrittenList(old(store.orders), loaded)
      ensures TheWorld() == RestartAndRecover(old(TheWorld()), loaded, seen, readable, canClaim)
      ensures orphaned == if loaded == [] then {} else set id | id in seen && id !in old(store.orders)
      ensures report == RecoveryReport(|loaded|, |orphaned|,
                                       ReconciledCount(Restart(old(TheWorld()), loaded, seen), readable, canClaim))
      ensures
        HashInvariant(old(TheWorld())) && StatusInvariant(old(TheWorld())) && Readable(readable, old(past.receipts)) ==>
          forall id :: id in old(store.orders) && !IsTerminal(old(store.orders[id].status)) ==>
            Survives(old(TheWorld()), TheWorld(), id)
      ensures HashInvariant(old(TheWorld())) && StatusInvariant(old(TheWorld())) ==>
        forall id :: id in old(store.orders) ==>
          RecoveredAsDue(old(TheWorld()), TheWorld(), id, readable, canClaim(id))
    {
      ghost var before := TheWorld();
      report, orphaned, loaded := LoadAndReconcile(readable, canClaim, seen);
      EveryActiveOrderSurvives(before, loaded, seen, readable, canClaim);
      EveryOrderIsRecoveredAsDue(before, loaded, seen, readable, canClaim);
    }

    method LoadAndReconcile(readable: Receipts, canClaim: OrderId -> bool, seen: set<OrderId>)
      returns (report: RecoveryReport, orphaned: set<OrderId>, loaded: seq<OrderId>)
      requires Valid() && bus == multiset{}
      requires forall id :: id in store.orders ==> store.orders[id].id == id
      modifies this, store
      ensures Valid() && IsWrittenList(old(store.orders), loaded)
      ensures TheWorld() == RestartAndRecover(old(TheWorld()), loaded, seen, readable, canClaim)
      ensures orphaned == if loaded == [] then {} else set id | id in seen && id !in old(store.orders)
      ensures report == RecoveryReport(|loaded|, |orphaned|,
                                       ReconciledCount(Restart(old(TheWorld()), loaded, seen), readable, canClaim))
    {
      loaded := LoadActiveOrders();
      recovering := loaded;
      if loaded == [] {
        return RecoveryReport(0, 0, 0), {}, loaded;
      }
      orphaned := RecoverOrphanedIntents(seen);
      var reconciled := ReconcileAll(readable, canClaim);
      report := RecoveryReport(|loaded|, |orphaned|, reconciled);
    }

    // The loop over the loaded orders.
    method ReconcileAll(readable: Receipts, canClaim: OrderId -> bool) returns (reconciled: nat)
      requires Valid() && forall id :: id in recovering ==> id in store.orders
      requires forall id :: id in store.orders ==> store.orders[id].id == id
      modifies this, store
      ensures Valid() && TheWorld() == RecoverAll(old(TheWorld()), readable, canClaim)
      ensures reconciled == ReconciledCount(old(TheWorld()), readable, canClaim)
    {
      reconciled := 0;
      ghost var start := TheWorld();
      while recovering != []
        invariant Valid()
        invariant forall id :: id in store.orders ==> store.orders[id].id == id
        invariant forall id :: id in recovering ==> id in store.orders
        invariant RecoverAll(TheWorld(), readable, canClaim) == RecoverAll(start, readable, canClaim)
        invariant reconciled + ReconciledCount(TheWorld(), readable, canClaim)
          == ReconciledCount(start, readable, canClaim)
        decreases |recovering|
      {
        var id := recovering[0];
        var more := RecoverOne(readable, canClaim(id));
        reconciled := reconciled + more;
      }
    }

    // One turn of that loop.
    method RecoverOne(readable: Receipts, canClaim: bool) returns (reconciled: nat)
      requires Valid() && recovering != [] && recovering[0] in store.orders
      requires forall id :: id in recovering ==> id in store.orders
      requires forall id :: id in store.orders ==> store.orders[id].id == id
      modifies this, store
      ensures Valid() && TheWorld() == RecoverNext(old(TheWorld()), readable, canClaim)
      ensures recovering == old(recovering[1..])
      ensures forall id :: id in recovering ==> id in store.orders
      ensures forall id :: id in store.orders ==> store.orders[id].id == id
      ensures reconciled == if ReconcileWithBlockchain(old(store.orders[recovering[0]]), readable).Ok? then 1 else 0
    {
      var id := recovering[0];
      assert forall k :: k in recovering[1..] ==> k in recovering;
      recovering := recovering[1..];
      var order := store.orders[id];
      var result := ReconcileWithBlockchain(order, readable);
      if result.Err? {
        assert store.orders == store.orders[id := order];
        return 0;
      }
      KeepsId(order, readable, canClaim);
      PublishRecoveryEvent(order, result.value, canClaim);
      assert store.orders == old(store.orders)[id := RecoverOrder(order, readable, canClaim).0];
      return 1;
    }
  }
}
