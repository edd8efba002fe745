/**
 The two inductive invariants of the protocol, which hold in every run: HashInvariant speaks of hashes,
 proofs and continuations, StatusInvariant adds what the statuses mean.
 */
module Invariants {
  import opened Wrappers
  import opened OrderTypes
  import opened Protocol
  import opened Runs

  // ----- what holds whatever the statuses are -----

  // The hashes of an order were delivered for it, in lifecycle order, each on top of a success.
  ghost predicate OrderInv(past: History, id: OrderId, o: Order) {
    && o.id == id
    && WasSent(past, id, o, Prepare) && WasSent(past, id, o, Fill) && WasSent(past, id, o, PostFill)
    && WasSent(past, id, o, PreClaim) && WasSent(past, id, o, Claim)
    && (o.prepareTx.Some? || o.fillTx.Some? ==> o.executionParams.Some?)
    && (o.fillTx.Some? && o.prepareTx.Some? ==> Succeeded(past.receipts, o.prepareTx.value))
    && (o.postFillTx.Some? || o.fillProof.Some? ==> Filled(past, o))
    && (o.preClaimTx.Some? || o.claimTx.Some? ==> MayClaim(past, o))
  }

  ghost predicate WasSent(past: History, id: OrderId, o: Order, t: TxType) {
    TxOf(o, t).Some? ==> TxOf(o, t).value in past.sent && past.sent[TxOf(o, t).value] == (id, t)
  }

  ghost predicate Filled(past: History, o: Order) {
    o.fillTx.Some? && Succeeded(past.receipts, o.fillTx.value)
  }

  // What must be true before a claim: filled on chain, proven, and once declared claimable.
  ghost predicate MayClaim(past: History, o: Order) {
    Filled(past, o) && o.fillProof.Some? && o.id in past.claimable
  }

  // The delivered transaction that a continuation carries.
  function HashOf(c: Cont): Option<Hash> {
    match c
    case TxPending(_, h, _, _) => Some(h)
    case TxMonitor(_, h, _, _) => Some(h)
    case TxConfirmed(_, h, _, _) => Some(h)
    case TxFailed(_, h, _) => Some(h)
    case _ => None
  }

  // It is indexed under the order that the continuation drives.
  predicate Indexed(txIndex: map<Hash, OrderId>, c: Cont) {
    HashOf(c).Some? ==> HashOf(c).value in txIndex && txIndex[HashOf(c).value] == c.Key()
  }

  // A transaction in flight is the latest one of its order.
  ghost predicate InFlight(o: Order, h: Hash, t: TxType) {
    && TxOf(o, t) == Some(h)
    && (t.Prepare? ==> o.fillTx.None?)
    && (t.Prepare? || t.Fill? ==> o.postFillTx.None? && o.fillProof.None?)
    && (!t.Claim? ==> o.claimTx.None?)
    && (!t.Claim? && !t.PreClaim? ==> o.preClaimTx.None?)
  }

  // What is true of the order `o` that a live continuation drives.
  ghost predicate ContInv(past: History, o: Order, c: Cont) {
    match c
    case Preparing(_, _) => o.prepareTx.None? && Unfilled(o)
    case Executing(_, _) =>
      && Unfilled(o) && o.executionParams.Some?
      && (o.prepareTx.Some? ==> Succeeded(past.receipts, o.prepareTx.value))
    case TxPending(_, h, t, _) => InFlight(o, h, t)
    case TxMonitor(_, h, t, _) => InFlight(o, h, t)
    case TxConfirmed(_, h, t, success) => InFlight(o, h, t) && (success ==> Succeeded(past.receipts, h))
    case TxFailed(_, h, t) => InFlight(o, h, t)
    case PostFillReady(_) =>
      Filled(past, o) && o.postFillTx.None? && o.fillProof.None? && o.preClaimTx.None? && o.claimTx.None?
    case StartMonitoring(_, h) => Filled(past, o) && o.fillTx == Some(h) && o.claimTx.None?
    case SettlementMonitor(_, h) => Filled(past, o) && o.fillTx == Some(h) && o.claimTx.None?
    case SettlementPolling(_, proof) => Filled(past, o) && o.fillProof == Some(proof) && o.claimTx.None?
    case PreClaimReady(_) => MayClaim(past, o) && o.claimTx.None?
    case ClaimReady(_) => MayClaim(past, o) && o.claimTx.None?
  }

  ghost predicate Unfilled(o: Order) {
    o.fillTx.None? && o.postFillTx.None? && o.preClaimTx.None? && o.claimTx.None? && o.fillProof.None?
  }

  // At most one live continuation per order, and none for an order that recovery still has to look at.
  ghost predicate OneContinuation(w: World) {
    && (forall c :: c in w.bus ==> w.bus[c] == 1)
    && (forall c, d :: c in w.bus && d in w.bus && c.Key() == d.Key() ==> c == d)
    && Distinct(w.recovering)
    && (forall c :: c in w.bus ==> c.Key() !in w.recovering)
  }

  ghost predicate HashInvariant(w: World) {
    && (forall id :: id in w.orders ==> OrderInv(w.past, id, w.orders[id]))
    && (forall chain, h :: (chain, h) in w.past.receipts ==> h in w.past.sent)
    && (forall c :: c in w.bus ==> c.Key() in w.orders && ContInv(w.past, w.orders[c.Key()], c))
    && (forall c :: c in w.bus ==> Indexed(w.txIndex, c))
    && (forall id :: id in w.recovering ==> id in w.orders)
    && OneContinuation(w)
  }

  // ----- what the statuses mean -----

  ghost predicate StatusInv(past: History, o: Order) {
    && (o.status.Created? ==> o.executionParams.None? && o.prepareTx.None?)
    && (!o.status.Created? ==> o.executionParams.Some?)
    && (o.status.Pending? ==> o.prepareTx.Some?)
    && (o.status.Created? || o.status.Pending? ==> o.fillTx.None?)
    && (o.status.Executing? ==> o.postFillTx.None? && o.fillProof.None?)
    && (o.status.Executed? || o.status.PostFilled? || o.status.Settled? || o.status.PreClaimed? ==> Filled(past, o))
    && (o.status.PostFilled? ==> o.postFillTx.Some?)
    && (o.status.Settled? || o.status.PreClaimed? ==> o.fillProof.Some?)
    && (o.status.PreClaimed? ==> o.preClaimTx.Some?)
    && (Rank(o.status) < Rank(Settled) ==> o.preClaimTx.None? && o.claimTx.None?)
    && (o.status.Finalized? ==> o.claimTx.Some?)
  }

  // The statuses at which each continuation can be live; none of them is terminal.
  predicate ContStatus(c: Cont, s: Status) {
    match c
    case Preparing(_, _) => s.Created?
    case Executing(_, _) => s.Executing?
    case TxPending(_, _, t, _) => TxStatus(t, s)
    case TxMonitor(_, _, t, _) => TxStatus(t, s)
    case TxConfirmed(_, _, t, _) => TxStatus(t, s)
    case TxFailed(_, _, t) => TxStatus(t, s)
    case PostFillReady(_) => s.Executed?
    case StartMonitoring(_, _) => s.Executed? || s.PostFilled? || s.Settled? || s.PreClaimed?
    case SettlementMonitor(_, _) => s.Executed? || s.PostFilled? || s.Settled? || s.PreClaimed?
    case SettlementPolling(_, _) => s.Executed? || s.PostFilled? || s.Settled? || s.PreClaimed?
    case PreClaimReady(_) => s.Settled? || s.PreClaimed?
    case ClaimReady(_) => s.Settled? || s.PreClaimed?
  }

  predicate TxStatus(t: TxType, s: Status) {
    match t
    case Prepare => s.Pending?
    case Fill => s.Executing?
    case PostFill => s.Executed?
    case PreClaim => s.Settled? || s.PreClaimed?
    case Claim => s.Settled? || s.PreClaimed?
  }

  // Recovery as written may resume a failed order, whose continuations then are live at any stage.
  predicate MayLive(c: Cont, s: Status) {
    ContStatus(c, s) || (s.Failed? && !c.Preparing?)
  }

  ghost predicate StatusInvariant(w: World) {
    && (forall id :: id in w.orders ==> StatusInv(w.past, w.orders[id]))
    && (forall c :: c in w.bus && c.Key() in w.orders ==> MayLive(c, w.orders[c.Key()].status))
  }

  // No failed order has been resumed: what the documented load adds.
  ghost predicate NoneResumed(w: World) {
    forall c :: c in w.bus && c.Key() in w.orders ==> !w.orders[c.Key()].status.Failed?
  }

  // ----- steps that touch one order -----

  // What a step does for the one order it touches: the record afterwards, the continuation it puts on
  // the bus, the transaction it delivers and indexes, and whether can_claim was asked and said yes.
  datatype Effect = Effect(order: Order, next: Option<Cont>, tx: Option<(TxType, Hash)>, confirmed: bool)

  function Quiet(o: Order): Effect {
    Effect(o, None, None, false)
  }

  function Single(c: Option<Cont>): multiset<Cont> {
    if c.Some? then multiset{c.value} else multiset{}
  }

  function PastAfter(past: History, id: OrderId, e: Effect): History {
    past.(sent := if e.tx.Some? then past.sent[e.tx.value.1 := (id, e.tx.value.0)] else past.sent,
          claimable := if e.confirmed then past.claimable + {id} else past.claimable)
  }

  function Apply(w: World, id: OrderId, spent: Option<Cont>, e: Effect): World {
    w.(orders := w.orders[id := e.order],
       bus := w.bus - Single(spent) + Single(e.next),
       txIndex := if e.tx.Some? then w.txIndex[e.tx.value.1 := id] else w.txIndex,
       past := PastAfter(w.past, id, e))
  }

  // Intents play no part in the invariants.
  ghost predicate SameButIntents(v: World, u: World) {
    v == u.(intents := v.intents)
  }

  // Hashes are set once; only a PreClaim may be replaced.
  predicate KeepsHashes(o: Order, p: Order) {
    && (o.prepareTx.Some? ==> p.prepareTx == o.prepareTx)
    && (o.fillTx.Some? ==> p.fillTx == o.fillTx)
    && (o.postFillTx.Some? ==> p.postFillTx == o.postFillTx)
    && (o.claimTx.Some? ==> p.claimTx == o.claimTx)
  }

  // The effect e is right for the order o; everything here is about this one order.
  ghost predicate EffectInv(past: History, id: OrderId, o: Order, e: Effect) {
    && KeepsHashes(o, e.order)
    && (e.tx.Some? ==> e.tx.value.1 !in past.sent && TxOf(e.order, e.tx.value.0) == Some(e.tx.value.1))
    && (e.next.Some? ==> e.next.value.Key() == id)
    && OrderInv(PastAfter(past, id, e), id, e.order)
    && (e.next.Some? ==> ContInv(PastAfter(past, id, e), e.order, e.next.value))
  }

  // A transaction that the new continuation carries was just delivered, or carried by the spent one.
  predicate CarriesOn(spent: Option<Cont>, e: Effect) {
    e.next.Some? && HashOf(e.next.value).Some? ==>
      || (e.tx.Some? && HashOf(e.next.value) == Some(e.tx.value.1))
      || (spent.Some? && HashOf(e.next.value) == HashOf(spent.value))
  }

  ghost predicate EffectStatus(past: History, id: OrderId, e: Effect) {
    && StatusInv(PastAfter(past, id, e), e.order)
    && (e.next.Some? ==> MayLive(e.next.value, e.order.status))
  }

  // `spent` is the only continuation of `id`, if there is one.
  ghost predicate Spends(w: World, id: OrderId, spent: Option<Cont>) {
    && (spent.Some? ==> spent.value in w.bus && spent.value.Key() == id)
    && (forall c :: c in w.bus && c.Key() == id ==> spent == Some(c))
  }

  lemma OneContinuationSpends(w: World, c: Cont)
    requires OneContinuation(w) && c in w.bus
    ensures Spends(w, c.Key(), Some(c))
  {
  }

  lemma ApplyKeepsHashInvariant(w: World, id: OrderId, spent: Option<Cont>, e: Effect)
    requires HashInvariant(w) && id in w.orders && id !in w.recovering && Spends(w, id, spent)
    requires EffectInv(w.past, id, w.orders[id], e) && CarriesOn(spent, e)
    ensures HashInvariant(Apply(w, id, spent, e))
  {
    BusAfter(w, id, spent, e);
    CarriedWasSent(w);
    ApplyKeepsOrders(w, id, spent, e);
    ApplyKeepsIndex(w, id, spent, e);
    ApplyKeepsConts(w, id, spent, e);
  }

  lemma ApplyKeepsOrders(w: World, id: OrderId, spent: Option<Cont>, e: Effect)
    requires forall k :: k in w.orders ==> OrderInv(w.past, k, w.orders[k])
    requires e.tx.Some? ==> e.tx.value.1 !in w.past.sent
    requires OrderInv(PastAfter(w.past, id, e), id, e.order)
    ensures var v := Apply(w, id, spent, e); forall k :: k in v.orders ==> OrderInv(v.past, k, v.orders[k])
  {
    forall k | k in w.orders && k != id
      ensures OrderInv(PastAfter(w.past, id, e), k, w.orders[k])
    {
      OtherOrder(w.past, id, e, k, w.orders[k]);
    }
  }

  lemma ApplyKeepsIndex(w: World, id: OrderId, spent: Option<Cont>, e: Effect)
    requires forall c :: c in w.bus ==> Indexed(w.txIndex, c)
    requires forall c :: c in w.bus && HashOf(c).Some? ==> HashOf(c).value in w.past.sent
    requires forall c :: c in Apply(w, id, spent, e).bus ==> (c in w.bus && c.Key() != id) || e.next == Some(c)
    requires e.tx.Some? ==> e.tx.value.1 !in w.past.sent
    requires e.next.Some? ==> e.next.value.Key() == id
    requires spent.Some? ==> spent.value in w.bus && spent.value.Key() == id
    requires CarriesOn(spent, e)
    ensures var v := Apply(w, id, spent, e); forall c :: c in v.bus ==> Indexed(v.txIndex, c)
  {
  }

  lemma CarriedWasSent(w: World)
    requires forall id :: id in w.orders ==> OrderInv(w.past, id, w.orders[id])
    requires forall c :: c in w.bus ==> c.Key() in w.orders && ContInv(w.past, w.orders[c.Key()], c)
    ensures forall c :: c in w.bus && HashOf(c).Some? ==> HashOf(c).value in w.past.sent
  {
    forall c | c in w.bus && HashOf(c).Some?
      ensures HashOf(c).value in w.past.sent
    {
      var t := match c case TxPending(_, _, t, _) => t case TxMonitor(_, _, t, _) => t
        case TxConfirmed(_, _, t, _) => t case TxFailed(_, _, t) => t;
      assert WasSent(w.past, c.Key(), w.orders[c.Key()], t);
    }
  }

  lemma ApplyKeepsConts(w: World, id: OrderId, spent: Option<Cont>, e: Effect)
    requires forall c :: c in w.bus ==> c.Key() in w.orders && ContInv(w.past, w.orders[c.Key()], c)
    requires forall c :: c in Apply(w, id, spent, e).bus ==> (c in w.bus && c.Key() != id) || e.next == Some(c)
    requires e.next.Some? ==> e.next.value.Key() == id && ContInv(PastAfter(w.past, id, e), e.order, e.next.value)
    ensures
      var v := Apply(w, id, spent, e);
      forall c :: c in v.bus ==> c.Key() in v.orders && ContInv(v.past, v.orders[c.Key()], c)
  {
    forall c | c in w.bus && c.Key() != id
      ensures ContInv(PastAfter(w.past, id, e), w.orders[c.Key()], c)
    {
      OtherCont(w.past, id, e, w.orders[c.Key()], c);
    }
  }

  lemma OtherOrder(past: History, id: OrderId, e: Effect, k: OrderId, o: Order)
    requires e.tx.Some? ==> e.tx.value.1 !in past.sent
    requires OrderInv(past, k, o)
    ensures OrderInv(PastAfter(past, id, e), k, o)
  {
  }

  lemma OtherCont(past: History, id: OrderId, e: Effect, o: Order, c: Cont)
    requires ContInv(past, o, c)
    ensures ContInv(PastAfter(past, id, e), o, c)
  {
  }

  // The bus after a step: other orders keep theirs, and `next` is all that is left for `id`.
  lemma BusAfter(w: World, id: OrderId, spent: Option<Cont>, e: Effect)
    requires OneContinuation(w) && Spends(w, id, spent) && id !in w.recovering
    requires e.next.Some? ==> e.next.value.Key() == id
    ensures OneContinuation(Apply(w, id, spent, e))
    ensures forall c :: c in Apply(w, id, spent, e).bus <==> (c in w.bus && c.Key() != id) || e.next == Some(c)
  {
    var bus := w.bus - Single(spent) + Single(e.next);
    forall c
      ensures c in bus <==> (c in w.bus && c.Key() != id) || e.next == Some(c)
      ensures c in bus ==> bus[c] == 1
    {
      assert bus[c] == (w.bus - Single(spent))[c] + Single(e.next)[c];
    }
  }

  lemma ApplyKeepsStatusInvariant(w: World, id: OrderId, spent: Option<Cont>, e: Effect)
    requires StatusInvariant(w) && OneContinuation(w)
    requires id in w.orders && id !in w.recovering && Spends(w, id, spent)
    requires e.next.Some? ==> e.next.value.Key() == id
    requires EffectStatus(w.past, id, e)
    ensures StatusInvariant(Apply(w, id, spent, e))
  {
    BusAfter(w, id, spent, e);
    StatusesStay(w, id, e);
  }

  lemma StatusesStay(w: World, id: OrderId, e: Effect)
    requires forall k :: k in w.orders ==> StatusInv(w.past, w.orders[k])
    ensures forall k :: k in w.orders ==> StatusInv(PastAfter(w.past, id, e), w.orders[k])
  {
    forall k | k in w.orders
      ensures StatusInv(PastAfter(w.past, id, e), w.orders[k])
    {
      assert StatusInv(w.past, w.orders[k]);
    }
  }

  lemma ApplyKeepsNoneResumed(w: World, id: OrderId, spent: Option<Cont>, e: Effect)
    requires NoneResumed(w) && OneContinuation(w)
    requires id in w.orders && id !in w.recovering && Spends(w, id, spent)
    requires e.next.Some? ==> e.next.value.Key() == id && !e.order.status.Failed?
    ensures NoneResumed(Apply(w, id, spent, e))
  {
    BusAfter(w, id, spent, e);
  }
}
