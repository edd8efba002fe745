/**
 What each handler, and recovery, does to an order: the record and the continuation afterwards, in plain
 statuses and hashes.
 */
module Outcomes {
  import opened Wrappers
  import opened OrderTypes
  import opened Protocol
  import opened Recovery
  import opened Runs
  import opened Invariants
  import opened Preservation
  import opened RunTheorems
  import opened RecoveryTheorems

  // ----- handlers -----

  // A confirmed transaction moves its order on, unless the order has failed.
  predicate ConfirmationDue(o: Order, h: Hash, t: TxType, p: Order, next: Option<Cont>) {
    if t.Claim? then p == o.(status := Finalized, claimTx := Some(h)) && next == None
    else if o.status.Failed? then p == o && next == None
    else
      match t
      case Prepare =>
        && o.status.Pending? && o.executionParams.Some?
        && p == o.(status := Status.Executing) && next == Some(Cont.Executing(o, o.executionParams.value))
      case Fill => o.status.Executing? && p == o.(status := Executed) && next == Some(PostFillReady(o.id))
      case PostFill =>
        && o.status.Executed? && o.fillTx.Some?
        && p == o.(status := PostFilled) && next == Some(StartMonitoring(o.id, o.fillTx.value))
      case PreClaim =>
        if o.status.Settled? then p == o.(status := PreClaimed) && next == Some(ClaimReady(o.id))
        else o.status.PreClaimed? && p == o && next == None
      case Claim => false  // above
  }

  // What handling c must make of the order o it drives: the record p, and next as all that is in flight for it.
  predicate Due(o: Order, c: Cont, a: Answer, receipts: Receipts, p: Order, next: Option<Cont>) {
    match c
    case Preparing(order, params) =>
      (match a
       case Sent(h, chain) =>
         && p == o.(status := Pending, executionParams := Some(params), prepareTx := Some(h))
         && next == Some(TxPending(o.id, h, Prepare, chain))
       case NoTransaction =>
         && p == o.(status := Status.Executing, executionParams := Some(params))
         && next == Some(Cont.Executing(order, params))
       case _ => p == o && next == None)
    case Executing(_, _) =>
      if a.Sent? then p == o.(fillTx := Some(a.hash)) && next == Some(TxPending(o.id, a.hash, Fill, a.chain))
      else p == o && next == None
    case TxPending(id, h, t, chain) => p == o && next == Some(TxMonitor(id, h, t, chain))
    case TxMonitor(id, h, t, chain) =>
      && p == o
      && next == Some(if (chain, h) !in receipts then c
                      else if receipts[(chain, h)] then TxConfirmed(id, h, t, true) else TxFailed(id, h, t))
    case TxConfirmed(id, h, t, success) =>
      if !success then p == o && next == Some(TxFailed(id, h, t))
      else if (t.PostFill? || t.PreClaim?) && a.ServiceError? then p == o && next == None
      else ConfirmationDue(o, h, t, p, next)
    case TxFailed(_, _, t) => p == (if o.status.Failed? then o else o.(status := Failed(t))) && next == None
    case PostFillReady(_) =>
      if o.fillTx.None? || o.outputChains == [] || (o.outputChains[0], o.fillTx.value) !in receipts then
        p == o && next == None
      else
        (match a
         case Sent(h, chain) => p == o.(postFillTx := Some(h)) && next == Some(TxPending(o.id, h, PostFill, chain))
         case NoTransaction => p == o && next == Some(StartMonitoring(o.id, o.fillTx.value))
         case _ => p == o && next == None)
    case StartMonitoring(_, h) => p == o && next == Some(SettlementMonitor(o, h))
    case SettlementMonitor(order, _) =>
      if a.Attested? then p == o.(fillProof := Some(a.proof)) && next == Some(SettlementPolling(order, a.proof))
      else p == o && next == None
    case SettlementPolling(_, _) =>
      if a == CanClaim(true) then
        && p == (if o.status.Executed? || o.status.PostFilled? then o.(status := Settled) else o)
        && next == Some(PreClaimReady(o.id))
      else p == o && next == Some(c)
    case PreClaimReady(_) =>
      (match a
       case Sent(h, chain) => p == o.(preClaimTx := Some(h)) && next == Some(TxPending(o.id, h, PreClaim, chain))
       case NoTransaction => p == o && next == Some(ClaimReady(o.id))
       case _ => p == o && next == None)
    case ClaimReady(_) =>
      if a.Sent? then p == o.(claimTx := Some(a.hash)) && next == Some(TxPending(o.id, a.hash, Claim, a.chain))
      else p == o && next == None
  }

  lemma EffectIsDue(past: History, o: Order, c: Cont, a: Answer)
    requires Driven(past, o, c, a) && StatusInv(past, o) && MayLive(c, o.status)
    ensures var e := EffectOf(o, c, a, past.receipts); Due(o, c, a, past.receipts, e.order, e.next)
  {
    match c
    case TxConfirmed(_, _, _, _) => ConfirmationIsDue(past, o, c, a);
    case SettlementPolling(_, _) => SettlementIsDue(past, o, c, a);
    case PostFillReady(_) => StageIsDue(past, o, c, a);
    case PreClaimReady(_) => StageIsDue(past, o, c, a);
    case ClaimReady(_) => StageIsDue(past, o, c, a);
    case Executing(_, _) => StageIsDue(past, o, c, a);
    case _ =>
  }

  lemma ConfirmationIsDue(past: History, o: Order, c: Cont, a: Answer)
    requires Driven(past, o, c, a) && StatusInv(past, o) && MayLive(c, o.status) && c.TxConfirmed?
    ensures var e := EffectOf(o, c, a, past.receipts); Due(o, c, a, past.receipts, e.order, e.next)
  {
  }

  lemma SettlementIsDue(past: History, o: Order, c: Cont, a: Answer)
    requires Driven(past, o, c, a) && StatusInv(past, o) && MayLive(c, o.status) && c.SettlementPolling?
    ensures var e := EffectOf(o, c, a, past.receipts); Due(o, c, a, past.receipts, e.order, e.next)
  {
  }

  lemma StageIsDue(past: History, o: Order, c: Cont, a: Answer)
    requires Driven(past, o, c, a)
    requires c.Executing? || c.PostFillReady? || c.PreClaimReady? || c.ClaimReady?
    ensures var e := EffectOf(o, c, a, past.receipts); Due(o, c, a, past.receipts, e.order, e.next)
  {
  }

  // A delivered transaction is mapped to its order and recorded as sent; nothing else is.
  predicate Delivers(w: World, v: World, c: Cont, next: Option<Cont>) {
    if next.Some? && next.value.TxPending? then
      && v.txIndex == w.txIndex[next.value.hash := c.Key()]
      && v.past.sent == w.past.sent[next.value.hash := (c.Key(), next.value.tx)]
    else v.txIndex == w.txIndex && v.past.sent == w.past.sent
  }

  // Only a Signet order loses its intent record, and only when its fill was sent.
  predicate KeepsIntents(w: World, v: World, c: Cont, a: Answer) {
    v.intents == if c.Executing? && a.Sent? && c.order.standard == "signet" then w.intents - {c.Key()} else w.intents
  }

  // In every run, each handler does what is due: to its order, to the bus, to the index, and to nothing else.
  lemma HandlersDoWhatIsDue(r: Run, i: nat) returns (next: Option<Cont>)
    requires IsRun(r) && i < |r.labels| && r.labels[i].React?
    ensures var w, v, c, a := r.worlds[i], r.worlds[i + 1], r.labels[i].cont, r.labels[i].answer;
      && c.Key() in w.orders && c.Key() in v.orders
      && Due(w.orders[c.Key()], c, a, w.past.receipts, v.orders[c.Key()], next)
      && v.orders == w.orders[c.Key() := v.orders[c.Key()]]
      && (forall d :: d in v.bus <==> (d in w.bus && d.Key() != c.Key()) || next == Some(d))
      && Delivers(w, v, c, next) && KeepsIntents(w, v, c, a)
  {
    var w, c, a := r.worlds[i], r.labels[i].cont, r.labels[i].answer;
    assert StepAt(r, i);
    HashInvariantHolds(r, i);
    StatusInvariantHolds(r, i);
    next := EffectOf(w.orders[c.Key()], c, a, w.past.receipts).next;
    HandlerDoesWhatIsDue(w, c, a);
  }

  lemma HandlerDoesWhatIsDue(w: World, c: Cont, a: Answer)
    requires HashInvariant(w) && StatusInvariant(w) && Enabled(w, React(c, a))
    ensures c.Key() in w.orders
    ensures var e, v := EffectOf(w.orders[c.Key()], c, a, w.past.receipts), Next(w, React(c, a));
      && Due(w.orders[c.Key()], c, a, w.past.receipts, e.order, e.next)
      && v.orders == w.orders[c.Key() := e.order]
      && (forall d :: d in v.bus <==> (d in w.bus && d.Key() != c.Key()) || e.next == Some(d))
      && Delivers(w, v, c, e.next) && KeepsIntents(w, v, c, a)
  {
    InvariantDrives(w, c);
    var o := w.orders[c.Key()];
    HandlerIsLocal(w, c, a);
    EffectKeepsHashes(w.past, o, c, a);
    EffectIsDue(w.past, o, c, a);
    BusAfter(w, c.Key(), Some(c), EffectOf(o, c, a, w.past.receipts));
    PendingIffDelivered(o, c, a, w.past.receipts);
    IntentsAfter(Taken(w, c), c, a);
  }

  lemma PendingIffDelivered(o: Order, c: Cont, a: Answer, receipts: Receipts)
    ensures var e := EffectOf(o, c, a, receipts);
      && (e.tx.Some? <==> e.next.Some? && e.next.value.TxPending?)
      && (e.tx.Some? ==> e.tx.value == (e.next.value.tx, e.next.value.hash))
  {
  }

  lemma IntentsAfter(w: World, c: Cont, a: Answer)
    requires c.Key() in w.orders
    ensures KeepsIntents(w, Handle(w, c, a), c, a)
  {
    if c.Preparing? || c.Executing? {
      OrderStageIntents(w, c, a);
    } else if c.TxConfirmed? {
      ConfirmationKeepsIntents(w, c, a);
    } else if c.PostFillReady? || c.PreClaimReady? || c.ClaimReady? {
      SettlementKeepsIntents(w, c, a);
    } else {
      MonitorsKeepIntents(w, c, a);
    }
  }

  lemma OrderStageIntents(w: World, c: Cont, a: Answer)
    requires c.Key() in w.orders && (c.Preparing? || c.Executing?)
    ensures KeepsIntents(w, Handle(w, c, a), c, a)
  {
  }

  lemma ConfirmationKeepsIntents(w: World, c: Cont, a: Answer)
    requires c.TxConfirmed?
    ensures Handle(w, c, a).intents == w.intents
  {
  }

  lemma SettlementKeepsIntents(w: World, c: Cont, a: Answer)
    requires c.PostFillReady? || c.PreClaimReady? || c.ClaimReady?
    ensures Handle(w, c, a).intents == w.intents
  {
  }

  lemma MonitorsKeepIntents(w: World, c: Cont, a: Answer)
    requires !(c.Preparing? || c.Executing? || c.TxConfirmed? || c.PostFillReady? || c.PreClaimReady? || c.ClaimReady?)
    ensures Handle(w, c, a).intents == w.intents
  {
  }

  // ----- discovery -----

  // What an accepted, refused or repeated intent leaves behind.
  lemma DiscoveryOutcome(w: World, i: Intent, d: IntentDecision)
    ensures var v := OnIntent(w, i, d);
      var o := Order(i.id, i.standard, i.inputChains, i.outputChains, Created,
                     None, None, None, None, None, None, None);
      var accepted := i.id !in w.intents && (d.ContextError? || d.Skip? || d.Defer? || d.Execute?);
      && v.txIndex == w.txIndex && v.past == w.past && v.recovering == w.recovering
      && v.intents == (if d.Unprofitable? then w.intents else w.intents + {i.id})
      && v.orders == (if accepted then w.orders[i.id := o] else w.orders)
      && v.bus == w.bus + if accepted && d.Execute? then multiset{Preparing(o, d.params)} else multiset{}
  {
  }

  // ----- recovery -----

  // The first chain of the list is read, and says that the transaction succeeded.
  predicate ReadsSuccess(readable: Receipts, chains: seq<ChainId>, h: Hash) {
    chains != [] && (chains[0], h) in readable && readable[(chains[0], h)]
  }

  // A terminal record is left alone.
  predicate Becomes(o: Order, s: Status, p: Order) {
    p == if o.status.Finalized? || o.status.Failed? then o else o.(status := s)
  }

  // What recovering the order o must make of it. The latest stored transaction decides.
  predicate RecoveryDue(o: Order, readable: Receipts, canClaim: bool, p: Order, next: Option<Cont>) {
    if o.claimTx.Some? then
      && next == None
      && if o.inputChains == [] then p == o
         else Becomes(o, if ReadsSuccess(readable, o.inputChains, o.claimTx.value) then Finalized else Failed(Claim), p)
    else if o.preClaimTx.Some? then
      if o.inputChains == [] then p == o && next == None
      else if !ReadsSuccess(readable, o.inputChains, o.preClaimTx.value) then
        Becomes(o, Failed(PreClaim), p) && next == None
      else
        && o.fillTx.Some? && Becomes(o, PreClaimed, p)
        && next == Some(if o.fillProof.Some? && canClaim then ClaimReady(o.id)
                        else StartMonitoring(o.id, o.fillTx.value))
    else if o.postFillTx.Some? then
      if o.outputChains == [] then p == o && next == None
      else if !ReadsSuccess(readable, o.outputChains, o.postFillTx.value) then
        Becomes(o, Failed(PostFill), p) && next == None
      else
        && o.fillTx.Some? && Becomes(o, if o.status.Settled? then Settled else PostFilled, p)
        && next == Some(StartMonitoring(o.id, o.fillTx.value))
    else if o.fillTx.Some? then
      if o.outputChains == [] then p == o && next == None
      else if !ReadsSuccess(readable, o.outputChains, o.fillTx.value) then
        Becomes(o, Failed(Fill), p) && next == None
      else if o.fillProof.None? then Becomes(o, Executed, p) && next == Some(PostFillReady(o.id))
      else
        && Becomes(o, Settled, p)
        && next == Some(if canClaim then PreClaimReady(o.id) else StartMonitoring(o.id, o.fillTx.value))
    else if o.prepareTx.Some? then
      if o.inputChains == [] then p == o && next == None
      else if !ReadsSuccess(readable, o.inputChains, o.prepareTx.value) then
        Becomes(o, Failed(Prepare), p) && next == None
      else
        && o.executionParams.Some? && Becomes(o, Status.Executing, p)
        && next == Some(Cont.Executing(p, o.executionParams.value))
    else if o.executionParams.Some? then
      Becomes(o, Status.Executing, p) && next == Some(Cont.Executing(p, o.executionParams.value))
    else Becomes(o, Created, p) && next == None
  }

  lemma RecoveryIsDue(past: History, id: OrderId, o: Order, readable: Receipts, canClaim: bool)
    requires OrderInv(past, id, o) && StatusInv(past, o)
    ensures var (p, next) := RecoverOrder(o, readable, canClaim); RecoveryDue(o, readable, canClaim, p, next)
  {
    if IsTerminal(o.status) {
      TerminalIsDue(past, id, o, readable, canClaim);
    } else {
      ActiveIsDue(past, id, o, readable, canClaim);
    }
  }

  lemma TerminalIsDue(past: History, id: OrderId, o: Order, readable: Receipts, canClaim: bool)
    requires OrderInv(past, id, o) && StatusInv(past, o) && IsTerminal(o.status)
    ensures var (p, next) := RecoverOrder(o, readable, canClaim); RecoveryDue(o, readable, canClaim, p, next)
  {
    TerminalIsNotWritten(o, readable, canClaim);
  }

  lemma ActiveIsDue(past: History, id: OrderId, o: Order, readable: Receipts, canClaim: bool)
    requires OrderInv(past, id, o) && StatusInv(past, o) && !IsTerminal(o.status)
    ensures var (p, next) := RecoverOrder(o, readable, canClaim); RecoveryDue(o, readable, canClaim, p, next)
  {
    var r := ReconcileWithBlockchain(o, readable);
    if r.Ok? {
      if r.value.HasFailed? || r.value.IsFinalized? {
        EndIsDue(past, id, o, r.value, readable, canClaim);
      } else if r.value.NeedsPreClaim? || r.value.NeedsClaim? || r.value.NeedsMonitoring? {
        LateIsDue(past, id, o, r.value, readable, canClaim);
      } else {
        EarlyIsDue(past, id, o, r.value, readable, canClaim);
      }
    }
  }

  lemma EndIsDue(past: History, id: OrderId, o: Order, r: ReconcileResult, readable: Receipts, canClaim: bool)
    requires OrderInv(past, id, o) && StatusInv(past, o) && !IsTerminal(o.status)
    requires ReconcileWithBlockchain(o, readable) == Ok(r) && (r.HasFailed? || r.IsFinalized?)
    ensures var (p, next) := RecoverOrder(o, readable, canClaim); RecoveryDue(o, readable, canClaim, p, next)
  {
    EndsTerminal(past, id, o, r, readable, canClaim);
  }

  lemma LateIsDue(past: History, id: OrderId, o: Order, r: ReconcileResult, readable: Receipts, canClaim: bool)
    requires OrderInv(past, id, o) && StatusInv(past, o) && !IsTerminal(o.status)
    requires ReconcileWithBlockchain(o, readable) == Ok(r)
    requires r.NeedsPreClaim? || r.NeedsClaim? || r.NeedsMonitoring?
    ensures var (p, next) := RecoverOrder(o, readable, canClaim); RecoveryDue(o, readable, canClaim, p, next)
  {
  }

  lemma EarlyIsDue(past: History, id: OrderId, o: Order, r: ReconcileResult, readable: Receipts, canClaim: bool)
    requires OrderInv(past, id, o) && StatusInv(past, o) && !IsTerminal(o.status)
    requires ReconcileWithBlockchain(o, readable) == Ok(r)
    requires r.NeedsExecution? || r.NeedsFill? || r.NeedsPostFill?
    ensures var (p, next) := RecoverOrder(o, readable, canClaim); RecoveryDue(o, readable, canClaim, p, next)
  {
  }

  // After a whole recovery, started at any moment of any run, every listed order is as is due, and so is what
  // is in flight for it.
  ghost predicate RecoveredAsDue(w: World, v: World, id: OrderId, readable: Receipts, canClaim: bool)
    requires id in w.orders
  {
    && id in v.orders
    && exists next: Option<Cont> ::
         && RecoveryDue(w.orders[id], readable, canClaim, v.orders[id], next)
         && forall d :: d in v.bus && d.Key() == id <==> next == Some(d)
  }

  lemma RecoveryDoesWhatIsDue(r: Run, i: nat, loaded: seq<OrderId>, seen: set<OrderId>,
                              readable: Receipts, canClaim: OrderId -> bool)
    requires IsRun(r) && i < |r.worlds| && Enabled(r.worlds[i], Crash(loaded, seen))
    ensures var w := r.worlds[i];
      var v := RecoverAll(Restart(w, loaded, seen), readable, canClaim);
      && (forall id :: id in loaded ==> RecoveredAsDue(w, v, id, readable, canClaim(id)))
      && (forall id :: id in w.orders && id !in loaded ==> id in v.orders && v.orders[id] == w.orders[id])
  {
    HashInvariantHolds(r, i);
    StatusInvariantHolds(r, i);
    ListedAreRecoveredAsDue(r.worlds[i], loaded, seen, readable, canClaim);
  }

  lemma ListedAreRecoveredAsDue(w: World, loaded: seq<OrderId>, seen: set<OrderId>,
                                readable: Receipts, canClaim: OrderId -> bool)
    requires Distinct(loaded) && forall id :: id in loaded ==> id in w.orders
    requires forall id :: id in w.orders ==> OrderInv(w.past, id, w.orders[id]) && StatusInv(w.past, w.orders[id])
    ensures var v := RecoverAll(Restart(w, loaded, seen), readable, canClaim);
      && (forall id :: id in loaded ==> RecoveredAsDue(w, v, id, readable, canClaim(id)))
      && (forall id :: id in w.orders && id !in loaded ==> id in v.orders && v.orders[id] == w.orders[id])
  {
    var u := Restart(w, loaded, seen);
    var v := RecoverAll(u, readable, canClaim);
    RecoverAllIsPointwise(u, readable, canClaim);
    forall id | id in loaded
      ensures RecoveredAsDue(w, v, id, readable, canClaim(id))
    {
      RecoveryIsDue(w.past, id, w.orders[id], readable, canClaim(id));
      RecoveredWorld(u, id, readable, canClaim);
      var next := RecoverOrder(w.orders[id], readable, canClaim(id)).1;
      assert RecoveryDue(w.orders[id], readable, canClaim(id), v.orders[id], next);
    }
  }

  // With the list that is really returned, that is every order.
  lemma EveryOrderIsRecoveredAsDue(w: World, loaded: seq<OrderId>, seen: set<OrderId>,
                                   readable: Receipts, canClaim: OrderId -> bool)
    requires IsWrittenList(w.orders, loaded)
    ensures HashInvariant(w) && StatusInvariant(w) ==>
      forall id :: id in w.orders ==>
        RecoveredAsDue(w, RestartAndRecover(w, loaded, seen, readable, canClaim), id, readable, canClaim(id))
  {
    LoadMatchesDocumentation(w.orders);
    if HashInvariant(w) && StatusInvariant(w) {
      ListedAreRecoveredAsDue(w, loaded, seen, readable, canClaim);
    }
  }
}
