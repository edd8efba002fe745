/**
 Every step keeps the two invariants, and writes statuses along the edges of the transition table, except
 where it confirms a claim of a failed order.
 */
module Preservation {
  import opened Wrappers
  import opened OrderTypes
  import opened Protocol
  import opened Recovery
  import opened Runs
  import opened Invariants

  predicate StatusMove(s: Status, t: Status) {
    s == t || IsValidTransition(s, t)
  }

  // No order disappears, and every status either stays or moves along an edge of the table.
  ghost predicate EdgesOnly(w: World, v: World) {
    forall id :: id in w.orders ==>
      id in v.orders && StatusMove(w.orders[id].status, v.orders[id].status)
  }

  // The one write off the table: a claim of a resumed failed order is confirmed.
  predicate LateClaim(s: Status, t: Status) {
    s.Failed? && t.Finalized?
  }

  ghost predicate EdgesOrLateClaims(w: World, v: World) {
    forall id :: id in w.orders ==>
      && id in v.orders
      && (StatusMove(w.orders[id].status, v.orders[id].status)
          || LateClaim(w.orders[id].status, v.orders[id].status))
  }

  // What every step keeps.
  ghost predicate Kept(w: World, v: World) {
    && HashInvariant(v)
    && (StatusInvariant(w) ==> StatusInvariant(v) && EdgesOrLateClaims(w, v))
  }

  // ----- what a handler does, seen from the order that it drives -----

  function PreparingEffect(o: Order, c: Cont, a: Answer): Effect
    requires c.Preparing?
  {
    var p := o.(executionParams := Some(c.params));
    match a
    case Sent(h, chain) =>
      Effect(p.(status := Pending, prepareTx := Some(h)), Some(TxPending(o.id, h, Prepare, chain)),
             Some((Prepare, h)), false)
    case NoTransaction => Effect(p.(status := Status.Executing), Some(Cont.Executing(c.order, c.params)), None, false)
    case _ => Quiet(o)
  }

  function MonitorEffect(o: Order, c: Cont, receipts: Receipts): Effect
    requires c.TxMonitor?
  {
    var status := GetStatus(receipts, c.hash, c.chain);
    Effect(o, Some(if status.None? then c
                   else if status.value then TxConfirmed(c.id, c.hash, c.tx, true)
                   else TxFailed(c.id, c.hash, c.tx)), None, false)
  }

  function ConfirmedEffect(o: Order, c: Cont, a: Answer): Effect
    requires c.TxConfirmed?
  {
    if !c.success then Effect(o, Some(TxFailed(c.id, c.hash, c.tx)), None, false)
    else if (c.tx.PostFill? || c.tx.PreClaim?) && a.ServiceError? then Quiet(o)
    else
      match c.tx
      case Prepare =>
        Advance(o, Status.Executing,
                if o.executionParams.Some? then Some(Cont.Executing(o, o.executionParams.value)) else None)
      case Fill => Advance(o, Executed, Some(PostFillReady(o.id)))
      case PostFill => Advance(o, PostFilled, MonitorAgain(o))
      case PreClaim => Advance(o, PreClaimed, Some(ClaimReady(o.id)))
      case Claim => Effect(o.(claimTx := Some(c.hash), status := Finalized), None, None, false)
  }

  // A guarded status write and the event that follows it.
  function Advance(o: Order, s: Status, next: Option<Cont>): Effect {
    if IsValidTransition(o.status, s) then Effect(o.(status := s), next, None, false) else Quiet(o)
  }

  // A transaction of type t was delivered, or was not needed, or the services failed.
  function DeliveryEffect(o: Order, t: TxType, a: Answer, otherwise: Option<Cont>): Effect {
    match a
    case Sent(h, chain) => Effect(WithTx(o, t, h), Some(TxPending(o.id, h, t, chain)), Some((t, h)), false)
    case NoTransaction => Effect(o, otherwise, None, false)
    case _ => Quiet(o)
  }

  function PostFillReadyEffect(o: Order, a: Answer, receipts: Receipts): Effect {
    if o.fillTx.None? || o.outputChains == [] || GetStatus(receipts, o.fillTx.value, o.outputChains[0]).None?
    then Quiet(o) else DeliveryEffect(o, PostFill, a, MonitorAgain(o))
  }

  function AttestationEffect(o: Order, c: Cont, a: Answer): Effect
    requires c.SettlementMonitor?
  {
    if a.Attested? then Effect(o.(fillProof := Some(a.proof)), Some(SettlementPolling(c.order, a.proof)), None, false)
    else Quiet(o)
  }

  function PollEffect(o: Order, c: Cont, a: Answer): Effect
    requires c.SettlementPolling?
  {
    if a == CanClaim(true) then Effect(Transitioned(o, Settled), Some(PreClaimReady(o.id)), None, true)
    else Effect(o, Some(c), None, false)
  }

  function PreClaimReadyEffect(o: Order, a: Answer): Effect {
    if o.fillProof.None? then Quiet(o) else DeliveryEffect(o, PreClaim, a, Some(ClaimReady(o.id)))
  }

  function ClaimReadyEffect(o: Order, a: Answer): Effect {
    if o.fillProof.None? then Quiet(o) else DeliveryEffect(o, Claim, a, None)
  }

  function EffectOf(o: Order, c: Cont, a: Answer, receipts: Receipts): Effect {
    match c
    case Preparing(_, _) => PreparingEffect(o, c, a)
    case Executing(_, _) => DeliveryEffect(o, Fill, a, None)
    case TxPending(id, h, t, chain) => Effect(o, Some(TxMonitor(id, h, t, chain)), None, false)
    case TxMonitor(_, _, _, _) => MonitorEffect(o, c, receipts)
    case TxConfirmed(_, _, _, _) => ConfirmedEffect(o, c, a)
    case TxFailed(_, _, t) => Quiet(Transitioned(o, Failed(t)))
    case PostFillReady(_) => PostFillReadyEffect(o, a, receipts)
    case StartMonitoring(_, h) => Effect(o, Some(SettlementMonitor(o, h)), None, false)
    case SettlementMonitor(_, _) => AttestationEffect(o, c, a)
    case SettlementPolling(_, _) => PollEffect(o, c, a)
    case PreClaimReady(_) => PreClaimReadyEffect(o, a)
    case ClaimReady(_) => ClaimReadyEffect(o, a)
  }

  // What a handler may rely on about its own order.
  ghost predicate Driven(past: History, o: Order, c: Cont, a: Answer) {
    && OrderInv(past, c.Key(), o)
    && ContInv(past, o, c)
    && (a.Sent? ==> a.hash !in past.sent)
  }

  // ----- a handler touches only the order that it drives -----

  // The order is stored under its own id, and a confirmation is looked up under the order it names.
  ghost predicate Addressed(w: World, c: Cont) {
    && c.Key() in w.orders && w.orders[c.Key()].id == c.Key()
    && (c.TxConfirmed? ==> c.hash in w.txIndex && w.txIndex[c.hash] == c.id)
    && (c.TxConfirmed? && c.tx.PostFill? ==> w.orders[c.id].fillTx.Some?)
    && (c.TxConfirmed? && c.tx.Prepare? ==> w.orders[c.id].executionParams.Some?)
  }

  function Taken(w: World, c: Cont): World {
    w.(bus := w.bus - multiset{c})
  }

  // The world v is w after e, except perhaps for the intents.
  ghost predicate After(w: World, v: World, c: Cont, e: Effect) {
    SameButIntents(v, Apply(w, c.Key(), Some(c), e))
  }

  lemma NothingChanges(w: World, id: OrderId)
    requires id in w.orders
    ensures w.orders[id := w.orders[id]] == w.orders
    ensures forall b: multiset<Cont> :: b + Single(None) == b
  {
  }

  lemma PreparingIsLocal(w: World, c: Cont, a: Answer)
    requires Addressed(w, c) && c.Preparing?
    ensures After(w, OnPreparing(Taken(w, c), c.order, c.params, a), c, PreparingEffect(w.orders[c.Key()], c, a))
  {
    NothingChanges(w, c.Key());
  }

  lemma ExecutingIsLocal(w: World, c: Cont, a: Answer)
    requires Addressed(w, c) && c.Executing?
    ensures After(w, OnExecuting(Taken(w, c), c.order, a), c, DeliveryEffect(w.orders[c.Key()], Fill, a, None))
  {
    NothingChanges(w, c.Key());
  }

  lemma MonitorIsLocal(w: World, c: Cont)
    requires Addressed(w, c) && c.TxMonitor?
    ensures After(w, OnTxMonitor(Taken(w, c), c.id, c.hash, c.tx, c.chain), c,
                  MonitorEffect(w.orders[c.Key()], c, w.past.receipts))
  {
    NothingChanges(w, c.Key());
  }

  lemma ConfirmedIsLocal(w: World, c: Cont, a: Answer)
    requires Addressed(w, c) && c.TxConfirmed?
    ensures After(w, OnConfirmed(Taken(w, c), c.id, c.hash, c.tx, c.success, a), c,
                  ConfirmedEffect(w.orders[c.Key()], c, a))
  {
    NothingChanges(w, c.id);
    if c.success && !((c.tx.PostFill? || c.tx.PreClaim?) && a.ServiceError?) {
      ConfirmedForIsLocal(w, c);
      assert OnConfirmed(Taken(w, c), c.id, c.hash, c.tx, c.success, a)
          == OnConfirmedFor(Taken(w, c), c.id, c.hash, c.tx);
    }
  }

  lemma ConfirmedForIsLocal(w: World, c: Cont)
    requires Addressed(w, c) && c.TxConfirmed? && c.success
    ensures After(w, OnConfirmedFor(Taken(w, c), c.id, c.hash, c.tx), c, ConfirmedEffect(w.orders[c.id], c, Done))
  {
    match c.tx
    case Prepare => PrepareConfirmedIsLocal(w, c);
    case Fill => FillConfirmedIsLocal(w, c);
    case PostFill => PostFillConfirmedIsLocal(w, c);
    case PreClaim => PreClaimConfirmedIsLocal(w, c);
    case Claim => NothingChanges(w, c.id);
  }

  lemma PrepareConfirmedIsLocal(w: World, c: Cont)
    requires Addressed(w, c) && c.TxConfirmed? && c.success && c.tx.Prepare?
    ensures After(w, OnConfirmedFor(Taken(w, c), c.id, c.hash, c.tx), c, ConfirmedEffect(w.orders[c.id], c, Done))
  {
    var o := w.orders[c.id];
    AdvancedIsLocal(w, c, Status.Executing, Some(Cont.Executing(o, o.executionParams.value)));
  }

  lemma FillConfirmedIsLocal(w: World, c: Cont)
    requires Addressed(w, c) && c.TxConfirmed? && c.success && c.tx.Fill?
    ensures After(w, OnConfirmedFor(Taken(w, c), c.id, c.hash, c.tx), c, ConfirmedEffect(w.orders[c.id], c, Done))
  {
    AdvancedIsLocal(w, c, Executed, Some(PostFillReady(c.id)));
  }

  lemma PostFillConfirmedIsLocal(w: World, c: Cont)
    requires Addressed(w, c) && c.TxConfirmed? && c.success && c.tx.PostFill?
    ensures After(w, OnConfirmedFor(Taken(w, c), c.id, c.hash, c.tx), c, ConfirmedEffect(w.orders[c.id], c, Done))
  {
    AdvancedIsLocal(w, c, PostFilled, MonitorAgain(w.orders[c.id]));
  }

  lemma PreClaimConfirmedIsLocal(w: World, c: Cont)
    requires Addressed(w, c) && c.TxConfirmed? && c.success && c.tx.PreClaim?
    ensures After(w, OnConfirmedFor(Taken(w, c), c.id, c.hash, c.tx), c, ConfirmedEffect(w.orders[c.id], c, Done))
  {
    AdvancedIsLocal(w, c, PreClaimed, Some(ClaimReady(c.id)));
  }

  lemma AdvancedIsLocal(w: World, c: Cont, s: Status, next: Option<Cont>)
    requires Addressed(w, c) && c.TxConfirmed?
    ensures After(w, Advanced(Taken(w, c), c.id, s, next), c, Advance(w.orders[c.id], s, next))
  {
    NothingChanges(w, c.id);
  }

  lemma PostFillReadyIsLocal(w: World, c: Cont, a: Answer)
    requires Addressed(w, c) && c.PostFillReady?
    ensures After(w, OnPostFillReady(Taken(w, c), c.id, a), c,
                  PostFillReadyEffect(w.orders[c.Key()], a, w.past.receipts))
  {
    NothingChanges(w, c.Key());
  }

  lemma AttestationIsLocal(w: World, c: Cont, a: Answer)
    requires Addressed(w, c) && c.SettlementMonitor?
    ensures After(w, OnAttestation(Taken(w, c), c.order, a), c, AttestationEffect(w.orders[c.Key()], c, a))
  {
    NothingChanges(w, c.Key());
  }

  lemma PollIsLocal(w: World, c: Cont, a: Answer)
    requires Addressed(w, c) && c.SettlementPolling?
    ensures After(w, OnPoll(Taken(w, c), c.order, c.proof, a), c, PollEffect(w.orders[c.Key()], c, a))
  {
    NothingChanges(w, c.Key());
  }

  lemma PreClaimReadyIsLocal(w: World, c: Cont, a: Answer)
    requires Addressed(w, c) && c.PreClaimReady?
    ensures After(w, OnPreClaimReady(Taken(w, c), c.id, a), c, PreClaimReadyEffect(w.orders[c.Key()], a))
  {
    NothingChanges(w, c.Key());
  }

  lemma ClaimReadyIsLocal(w: World, c: Cont, a: Answer)
    requires Addressed(w, c) && c.ClaimReady?
    ensures After(w, OnClaimReady(Taken(w, c), c.id, a), c, ClaimReadyEffect(w.orders[c.Key()], a))
  {
    NothingChanges(w, c.Key());
  }

  lemma HandlerIsLocal(w: World, c: Cont, a: Answer)
    requires Addressed(w, c)
    ensures After(w, Handle(Taken(w, c), c, a), c, EffectOf(w.orders[c.Key()], c, a, w.past.receipts))
  {
    match c
    case Preparing(_, _) => PreparingIsLocal(w, c, a);
    case Executing(_, _) => ExecutingIsLocal(w, c, a);
    case TxMonitor(_, _, _, _) => MonitorIsLocal(w, c);
    case TxConfirmed(_, _, _, _) => ConfirmedIsLocal(w, c, a);
    case PostFillReady(_) => PostFillReadyIsLocal(w, c, a);
    case SettlementMonitor(_, _) => AttestationIsLocal(w, c, a);
    case SettlementPolling(_, _) => PollIsLocal(w, c, a);
    case PreClaimReady(_) => PreClaimReadyIsLocal(w, c, a);
    case ClaimReady(_) => ClaimReadyIsLocal(w, c, a);
    case _ => OtherIsLocal(w, c, a);
  }

  lemma OtherIsLocal(w: World, c: Cont, a: Answer)
    requires Addressed(w, c) && (c.TxPending? || c.TxFailed? || c.StartMonitoring?)
    ensures After(w, Handle(Taken(w, c), c, a), c, EffectOf(w.orders[c.Key()], c, a, w.past.receipts))
  {
    NothingChanges(w, c.Key());
  }

  // ----- and keeps the invariants of that order -----

  lemma EffectKeepsHashes(past: History, o: Order, c: Cont, a: Answer)
    requires Driven(past, o, c, a)
    ensures EffectInv(past, c.Key(), o, EffectOf(o, c, a, past.receipts))
  {
    match c
    case Preparing(_, _) =>
    case Executing(_, _) => DeliveryKeepsHashes(past, o, c, Fill, a, None);
    case PostFillReady(_) => DeliveryKeepsHashes(past, o, c, PostFill, a, MonitorAgain(o));
    case PreClaimReady(_) => DeliveryKeepsHashes(past, o, c, PreClaim, a, Some(ClaimReady(o.id)));
    case ClaimReady(_) => DeliveryKeepsHashes(past, o, c, Claim, a, None);
    case _ => OtherEffectKeepsHashes(past, o, c, a);
  }

  lemma EffectCarriesOn(o: Order, c: Cont, a: Answer, receipts: Receipts)
    ensures CarriesOn(Some(c), EffectOf(o, c, a, receipts))
  {
  }

  // A stage may deliver its transaction: it is the next one of the order, or a repeated PreClaim.
  ghost predicate MayDeliver(past: History, o: Order, t: TxType) {
    match t
    case Prepare => false  // has its own effect, PreparingEffect
    case Fill =>
      && Unfilled(o) && o.executionParams.Some?
      && (o.prepareTx.Some? ==> Succeeded(past.receipts, o.prepareTx.value))
    case PostFill => Filled(past, o) && o.postFillTx.None? && o.preClaimTx.None? && o.claimTx.None?
    case PreClaim => MayClaim(past, o) && o.claimTx.None?
    case Claim => MayClaim(past, o) && o.claimTx.None?
  }

  lemma DeliveryKeepsHashes(past: History, o: Order, c: Cont, t: TxType, a: Answer, otherwise: Option<Cont>)
    requires OrderInv(past, c.Key(), o) && MayDeliver(past, o, t)
    requires a.Sent? ==> a.hash !in past.sent
    requires otherwise.Some? ==> otherwise.value.Key() == c.Key() && ContInv(past, o, otherwise.value)
    ensures EffectInv(past, c.Key(), o, DeliveryEffect(o, t, a, otherwise))
  {
  }

  lemma OtherEffectKeepsHashes(past: History, o: Order, c: Cont, a: Answer)
    requires Driven(past, o, c, a)
    requires !(c.Preparing? || c.Executing? || c.PostFillReady? || c.PreClaimReady? || c.ClaimReady?)
    ensures EffectInv(past, c.Key(), o, EffectOf(o, c, a, past.receipts))
  {
    match c
    case TxConfirmed(_, _, _, _) => ConfirmedKeepsHashes(past, o, c, a);
    case TxPending(_, _, _, _) =>
    case TxMonitor(_, _, _, _) =>
    case TxFailed(_, _, _) =>
    case _ => SettlementKeepsHashes(past, o, c, a);
  }

  lemma SettlementKeepsHashes(past: History, o: Order, c: Cont, a: Answer)
    requires Driven(past, o, c, a)
    requires c.StartMonitoring? || c.SettlementMonitor? || c.SettlementPolling?
    ensures EffectInv(past, c.Key(), o, EffectOf(o, c, a, past.receipts))
  {
  }

  lemma ConfirmedKeepsHashes(past: History, o: Order, c: Cont, a: Answer)
    requires Driven(past, o, c, a) && c.TxConfirmed?
    ensures EffectInv(past, c.Key(), o, ConfirmedEffect(o, c, a))
  {
    match c.tx
    case Prepare =>
      AdvanceKeepsHashes(past, o, c.id, Status.Executing, Cont.Executing(o, o.executionParams.value), c.success);
    case Fill => AdvanceKeepsHashes(past, o, c.id, Executed, PostFillReady(o.id), c.success);
    case PostFill => AdvanceKeepsHashes(past, o, c.id, PostFilled, StartMonitoring(o.id, o.fillTx.value), c.success);
    case PreClaim => AdvanceKeepsHashes(past, o, c.id, PreClaimed, ClaimReady(o.id), c.success);
    case Claim =>
  }

  // Statuses play no part in the first invariant, so a status write keeps it.
  lemma AdvanceKeepsHashes(past: History, o: Order, id: OrderId, s: Status, next: Cont, confirmed: bool)
    requires OrderInv(past, id, o)
    requires confirmed ==> next.Key() == id && ContInv(past, o, next)
    ensures confirmed ==> EffectInv(past, id, o, Advance(o, s, Some(next)))
  {
    ContIgnoresStatus(past, o, s, next);
    assert PastAfter(past, id, Advance(o, s, Some(next))) == past;
  }

  lemma ContIgnoresStatus(past: History, o: Order, s: Status, c: Cont)
    ensures ContInv(past, o.(status := s), c) == ContInv(past, o, c)
  {
  }

  // What a handler does to the status, on an order that has failed or has not.
  lemma EffectKeepsStatus(past: History, o: Order, c: Cont, a: Answer)
    requires Driven(past, o, c, a)
    requires StatusInv(past, o) && MayLive(c, o.status)
    ensures var e := EffectOf(o, c, a, past.receipts);
      && EffectStatus(past, c.Key(), e)
      && (StatusMove(o.status, e.order.status) || LateClaim(o.status, e.order.status))
      && (e.next.Some? && !o.status.Failed? ==> !e.order.status.Failed?)
  {
    if ContStatus(c, o.status) {
      LiveKeepsStatus(past, o, c, a);
    } else {
      ResumedKeepsStatus(past, o, c, a);
    }
  }

  // The continuation finds the order at one of the statuses of its stage, and leaves it at one of the next.
  ghost predicate LiveEffect(past: History, id: OrderId, e: Effect) {
    && StatusInv(PastAfter(past, id, e), e.order)
    && (e.next.Some? ==> ContStatus(e.next.value, e.order.status))
  }

  // A failed order is resumed: guarded writes are refused, and it stays failed until its claim is confirmed.
  lemma ResumedKeepsStatus(past: History, o: Order, c: Cont, a: Answer)
    requires Driven(past, o, c, a)
    requires StatusInv(past, o) && o.status.Failed? && !c.Preparing?
    ensures var e := EffectOf(o, c, a, past.receipts);
      && EffectStatus(past, c.Key(), e)
      && (e.order.status == o.status || (e.order.status.Finalized? && e.next.None?))
  {
    match c
    case TxConfirmed(_, _, _, _) =>
    case PostFillReady(_) => ResumedDelivery(past, o, c.Key(), PostFill, a, MonitorAgain(o));
    case Executing(_, _) => ResumedDelivery(past, o, c.Key(), Fill, a, None);
    case PreClaimReady(_) => ResumedDelivery(past, o, c.Key(), PreClaim, a, Some(ClaimReady(o.id)));
    case ClaimReady(_) => ResumedDelivery(past, o, c.Key(), Claim, a, None);
    case _ =>
  }

  lemma ResumedDelivery(past: History, o: Order, id: OrderId, t: TxType, a: Answer, otherwise: Option<Cont>)
    requires StatusInv(past, o) && o.status.Failed?
    requires otherwise.Some? ==> !otherwise.value.Preparing?
    ensures EffectStatus(past, id, DeliveryEffect(o, t, a, otherwise))
    ensures DeliveryEffect(o, t, a, otherwise).order.status == o.status
  {
  }

  lemma LiveKeepsStatus(past: History, o: Order, c: Cont, a: Answer)
    requires Driven(past, o, c, a)
    requires StatusInv(past, o) && ContStatus(c, o.status)
    ensures LiveEffect(past, c.Key(), EffectOf(o, c, a, past.receipts))
    ensures StatusMove(o.status, EffectOf(o, c, a, past.receipts).order.status)
  {
    match c
    case TxConfirmed(_, _, _, _) => ConfirmedKeepsStatus(past, o, c, a);
    case PostFillReady(_) => DeliveryKeepsStatus(past, o, c, PostFill, a, MonitorAgain(o));
    case Executing(_, _) => DeliveryKeepsStatus(past, o, c, Fill, a, None);
    case PreClaimReady(_) => DeliveryKeepsStatus(past, o, c, PreClaim, a, Some(ClaimReady(o.id)));
    case ClaimReady(_) => DeliveryKeepsStatus(past, o, c, Claim, a, None);
    case StartMonitoring(_, _) => SettlementKeepsStatus(past, o, c, a);
    case SettlementMonitor(_, _) => SettlementKeepsStatus(past, o, c, a);
    case SettlementPolling(_, _) => SettlementKeepsStatus(past, o, c, a);
    case _ => PlainKeepsStatus(past, o, c, a);
  }

  lemma PlainKeepsStatus(past: History, o: Order, c: Cont, a: Answer)
    requires Driven(past, o, c, a)
    requires c.Preparing? || c.TxPending? || c.TxMonitor? || c.TxFailed?
    requires StatusInv(past, o) && ContStatus(c, o.status)
    ensures LiveEffect(past, c.Key(), EffectOf(o, c, a, past.receipts))
    ensures StatusMove(o.status, EffectOf(o, c, a, past.receipts).order.status)
  {
  }

  lemma SettlementKeepsStatus(past: History, o: Order, c: Cont, a: Answer)
    requires Driven(past, o, c, a)
    requires c.StartMonitoring? || c.SettlementMonitor? || c.SettlementPolling?
    requires StatusInv(past, o) && ContStatus(c, o.status)
    ensures LiveEffect(past, c.Key(), EffectOf(o, c, a, past.receipts))
    ensures StatusMove(o.status, EffectOf(o, c, a, past.receipts).order.status)
  {
  }

  lemma DeliveryKeepsStatus(past: History, o: Order, c: Cont, t: TxType, a: Answer, otherwise: Option<Cont>)
    requires StatusInv(past, o) && TxStatus(t, o.status) && MayDeliver(past, o, t)
    requires otherwise.Some? ==> ContStatus(otherwise.value, o.status)
    ensures LiveEffect(past, c.Key(), DeliveryEffect(o, t, a, otherwise))
    ensures DeliveryEffect(o, t, a, otherwise).order.status == o.status
  {
  }

  lemma ConfirmedKeepsStatus(past: History, o: Order, c: Cont, a: Answer)
    requires Driven(past, o, c, a) && c.TxConfirmed?
    requires StatusInv(past, o) && TxStatus(c.tx, o.status)
    ensures LiveEffect(past, c.Key(), ConfirmedEffect(o, c, a))
    ensures StatusMove(o.status, ConfirmedEffect(o, c, a).order.status)
  {
    assert past == PastAfter(past, c.Key(), ConfirmedEffect(o, c, a));
  }

  // ----- from one order to the world -----

  lemma Conclude(w: World, v: World, id: OrderId, spent: Option<Cont>, e: Effect)
    requires HashInvariant(w) && id in w.orders && id !in w.recovering && Spends(w, id, spent)
    requires SameButIntents(v, Apply(w, id, spent, e))
    requires EffectInv(w.past, id, w.orders[id], e) && CarriesOn(spent, e)
    requires StatusInvariant(w) ==>
      && EffectStatus(w.past, id, e)
      && (StatusMove(w.orders[id].status, e.order.status) || LateClaim(w.orders[id].status, e.order.status))
    ensures Kept(w, v)
  {
    ApplyKeepsHashInvariant(w, id, spent, e);
    IntentsDoNotMatter(Apply(w, id, spent, e), v);
    if StatusInvariant(w) {
      ApplyKeepsStatusInvariant(w, id, spent, e);
    }
  }

  lemma IntentsDoNotMatter(u: World, v: World)
    requires SameButIntents(v, u)
    ensures HashInvariant(u) ==> HashInvariant(v)
    ensures StatusInvariant(u) ==> StatusInvariant(v)
  {
  }

  lemma InvariantDrives(w: World, c: Cont)
    requires HashInvariant(w) && c in w.bus
    ensures c.Key() in w.orders && c.Key() !in w.recovering && Spends(w, c.Key(), Some(c))
    ensures Driven(w.past, w.orders[c.Key()], c, Done)
    ensures c.TxConfirmed? ==> c.hash in w.txIndex && w.txIndex[c.hash] == c.id
  {
    OneContinuationSpends(w, c);
    assert Indexed(w.txIndex, c);
  }

  lemma ReactKeeps(w: World, c: Cont, a: Answer)
    requires HashInvariant(w) && Enabled(w, React(c, a))
    ensures Kept(w, Next(w, React(c, a)))
  {
    InvariantDrives(w, c);
    var o := w.orders[c.Key()];
    HandlerIsLocal(w, c, a);
    EffectKeepsHashes(w.past, o, c, a);
    EffectCarriesOn(o, c, a, w.past.receipts);
    if StatusInvariant(w) {
      EffectKeepsStatus(w.past, o, c, a);
    }
    Conclude(w, Next(w, React(c, a)), c.Key(), Some(c), EffectOf(o, c, a, w.past.receipts));
  }

  lemma DropKeeps(w: World, c: Cont)
    requires HashInvariant(w) && Enabled(w, Drop(c))
    ensures Kept(w, Next(w, Drop(c)))
  {
    InvariantDrives(w, c);
    var o := w.orders[c.Key()];
    assert w.orders == w.orders[c.Key() := o];
    Conclude(w, Next(w, Drop(c)), c.Key(), Some(c), Quiet(o));
  }

  // A new receipt adds successes and takes none away.
  lemma MineKeeps(w: World, chain: ChainId, h: Hash, success: bool)
    requires HashInvariant(w) && Enabled(w, Mine(chain, h, success))
    ensures Kept(w, Next(w, Mine(chain, h, success)))
  {
    SuccessesStay(w.past.receipts, chain, h, success);
    GrowthKeeps(w, Next(w, Mine(chain, h, success)));
  }

  lemma GrowthKeeps(w: World, v: World)
    requires HashInvariant(w) && Extends(w.past, v.past) && v == w.(past := v.past)
    requires forall chain, h :: (chain, h) in v.past.receipts ==> h in v.past.sent
    ensures Kept(w, v)
  {
    OrdersFollow(w, v);
    ContsFollow(w, v);
    StatusFollows(w, v);
  }

  lemma StatusFollows(w: World, v: World)
    requires StatusInvariant(w) ==> v.orders == w.orders && v.bus == w.bus
    requires forall k :: Succeeded(w.past.receipts, k) ==> Succeeded(v.past.receipts, k)
    ensures StatusInvariant(w) ==> StatusInvariant(v) && EdgesOrLateClaims(w, v)
  {
    if StatusInvariant(w) {
      forall id | id in v.orders
        ensures StatusInv(v.past, v.orders[id])
      {
        assert StatusInv(w.past, w.orders[id]);
      }
    }
  }

  lemma SuccessesStay(receipts: Receipts, chain: ChainId, h: Hash, success: bool)
    requires (chain, h) !in receipts
    ensures forall k :: Succeeded(receipts, k) ==> Succeeded(receipts[(chain, h) := success], k)
  {
    forall k: Hash | Succeeded(receipts, k)
      ensures Succeeded(receipts[(chain, h) := success], k)
    {
      var at :| (at, k) in receipts && receipts[(at, k)];
      assert (at, k) in receipts[(chain, h) := success];
    }
  }

  // The past only grows: what it said stays said.
  ghost predicate Extends(past: History, later: History) {
    && (forall k :: Succeeded(past.receipts, k) ==> Succeeded(later.receipts, k))
    && later.sent == past.sent
    && past.claimable <= later.claimable
  }

  lemma OrdersFollow(w: World, v: World)
    requires Extends(w.past, v.past) && v.orders == w.orders
    requires forall id :: id in w.orders ==> OrderInv(w.past, id, w.orders[id])
    ensures forall id :: id in v.orders ==> OrderInv(v.past, id, v.orders[id])
  {
  }

  lemma ContsFollow(w: World, v: World)
    requires Extends(w.past, v.past) && v.orders == w.orders && v.bus == w.bus
    requires forall c :: c in w.bus ==> c.Key() in w.orders && ContInv(w.past, w.orders[c.Key()], c)
    ensures forall c :: c in v.bus ==> c.Key() in v.orders && ContInv(v.past, v.orders[c.Key()], c)
  {
  }

  // A crash empties the bus, so recovery starts with no continuation at all.
  lemma CrashKeeps(w: World, loaded: seq<OrderId>, seen: set<OrderId>)
    requires HashInvariant(w) && Enabled(w, Crash(loaded, seen))
    ensures Kept(w, Next(w, Crash(loaded, seen)))
  {
  }

  // So does one inside a handler; what the handler had stored fits what it had delivered.
  lemma TearKeeps(w: World, c: Cont, a: Answer, stored: bool, indexed: bool, loaded: seq<OrderId>, seen: set<OrderId>)
    requires HashInvariant(w) && Enabled(w, Tear(c, a, stored, indexed, loaded, seen))
    ensures Kept(w, Next(w, Tear(c, a, stored, indexed, loaded, seen)))
  {
    InvariantDrives(w, c);
    TornIs(w, c, a, stored, indexed);
    TornHashes(w, c, a, stored);
    if StatusInvariant(w) {
      EffectKeepsStatus(w.past, w.orders[c.Key()], c, a);
      TornStatuses(w, c.Key(), EffectOf(w.orders[c.Key()], c, a, w.past.receipts), stored);
    }
    EmptiedKeeps(w, Torn(w, c, a, stored, indexed), loaded, seen);
  }

  lemma TornHashes(w: World, c: Cont, a: Answer, stored: bool)
    requires HashInvariant(w) && c.Key() in w.orders && Driven(w.past, w.orders[c.Key()], c, a)
    ensures
      var e := EffectOf(w.orders[c.Key()], c, a, w.past.receipts);
      var orders := if stored then w.orders[c.Key() := e.order] else w.orders;
      forall k :: k in orders ==> OrderInv(PastAfter(w.past, c.Key(), e), k, orders[k])
  {
    EffectKeepsHashes(w.past, w.orders[c.Key()], c, a);
    TornOrders(w, c.Key(), EffectOf(w.orders[c.Key()], c, a, w.past.receipts), stored);
  }

  lemma TornIs(w: World, c: Cont, a: Answer, stored: bool, indexed: bool)
    requires Addressed(w, c)
    ensures
      var v, e := Torn(w, c, a, stored, indexed), EffectOf(w.orders[c.Key()], c, a, w.past.receipts);
      && v.orders == (if stored then w.orders[c.Key() := e.order] else w.orders)
      && v.past == PastAfter(w.past, c.Key(), e)
  {
    HandlerIsLocal(w, c, a);
  }

  lemma TornOrders(w: World, id: OrderId, e: Effect, stored: bool)
    requires forall k :: k in w.orders ==> OrderInv(w.past, k, w.orders[k])
    requires e.tx.Some? ==> e.tx.value.1 !in w.past.sent
    requires OrderInv(PastAfter(w.past, id, e), id, e.order)
    ensures var orders := if stored then w.orders[id := e.order] else w.orders;
      forall k :: k in orders ==> OrderInv(PastAfter(w.past, id, e), k, orders[k])
  {
    forall k | k in w.orders
      ensures OrderInv(PastAfter(w.past, id, e), k, w.orders[k])
    {
      OtherOrder(w.past, id, e, k, w.orders[k]);
    }
  }

  lemma TornStatuses(w: World, id: OrderId, e: Effect, stored: bool)
    requires id in w.orders && forall k :: k in w.orders ==> StatusInv(w.past, w.orders[k])
    requires StatusInv(PastAfter(w.past, id, e), e.order)
    requires StatusMove(w.orders[id].status, e.order.status) || LateClaim(w.orders[id].status, e.order.status)
    ensures var orders := if stored then w.orders[id := e.order] else w.orders;
      && (forall k :: k in orders ==> StatusInv(PastAfter(w.past, id, e), orders[k]))
      && EdgesOrLateClaims(w, w.(orders := orders))
  {
    StatusesStay(w, id, e);
  }

  lemma EmptiedKeeps(w: World, v: World, loaded: seq<OrderId>, seen: set<OrderId>)
    requires forall k :: k in v.orders ==> OrderInv(v.past, k, v.orders[k])
    requires forall chain, h :: (chain, h) in v.past.receipts ==> h in v.past.sent
    requires Distinct(loaded) && forall k :: k in loaded ==> k in v.orders
    requires StatusInvariant(w) ==>
      (forall k :: k in v.orders ==> StatusInv(v.past, v.orders[k])) && EdgesOrLateClaims(w, v)
    ensures Kept(w, Restart(v, loaded, seen))
  {
  }

  // A new order starts with no hash and at most one continuation.
  lemma DiscoverKeeps(w: World, i: Intent, d: IntentDecision)
    requires HashInvariant(w) && Enabled(w, Discover(i, d))
    ensures Kept(w, Next(w, Discover(i, d)))
  {
    var v := Next(w, Discover(i, d));
    if i.id in w.intents || !Stores(d) {
      IntentsDoNotMatter(w, v);
    } else {
      AcceptedKeeps(w, v, OrderOf(i), if d.Execute? then Some(d.params) else None);
    }
  }

  // A new order and its first continuation, if it is executed at once.
  lemma AcceptedKeeps(w: World, v: World, o: Order, params: Option<ExecutionParams>)
    requires HashInvariant(w) && w.recovering == []
    requires o == NewOrder(o.id, o.standard, o.inputChains, o.outputChains) && o.id !in w.orders
    requires
      var stored := w.(orders := w.orders[o.id := o]);
      SameButIntents(v, if params.Some? then Publish(stored, Preparing(o, params.value)) else stored)
    ensures Kept(w, v)
  {
    var stored := w.(orders := w.orders[o.id := o]);
    NewOrderKeeps(w, stored, o);
    if params.Some? {
      FirstContinuation(stored, v, o.id, Preparing(o, params.value));
    } else {
      IntentsDoNotMatter(stored, v);
    }
  }

  lemma FirstContinuation(w: World, v: World, id: OrderId, c: Cont)
    requires HashInvariant(w) && w.recovering == [] && Spends(w, id, None)
    requires c.Preparing? && c.Key() == id && id in w.orders && w.orders[id] == c.order
    requires Unfilled(c.order) && c.order.prepareTx.None? && c.order.status.Created?
    requires SameButIntents(v, Publish(w, c))
    ensures Kept(w, v)
  {
    var e := Effect(c.order, Some(c), None, false);
    NothingChanges(w, id);
    assert w.bus - Single(None) == w.bus;
    Conclude(w, v, id, None, e);
  }

  lemma NewOrderKeeps(w: World, v: World, o: Order)
    requires HashInvariant(w) && w.recovering == []
    requires o == NewOrder(o.id, o.standard, o.inputChains, o.outputChains) && o.id !in w.orders
    requires v == w.(orders := w.orders[o.id := o])
    ensures HashInvariant(v) && Spends(v, o.id, None)
    ensures StatusInvariant(w) ==> StatusInvariant(v) && EdgesOrLateClaims(w, v)
  {
    NewOrderKeepsOrders(w, v, o);
    NewOrderKeepsBus(w, v, o);
    NewOrderKeepsStatus(w, v, o);
  }

  lemma NewOrderKeepsOrders(w: World, v: World, o: Order)
    requires forall id :: id in w.orders ==> OrderInv(w.past, id, w.orders[id])
    requires o == NewOrder(o.id, o.standard, o.inputChains, o.outputChains)
    requires v == w.(orders := w.orders[o.id := o])
    ensures forall id :: id in v.orders ==> OrderInv(v.past, id, v.orders[id])
  {
  }

  lemma NewOrderKeepsStatus(w: World, v: World, o: Order)
    requires forall c :: c in w.bus ==> c.Key() in w.orders
    requires o == NewOrder(o.id, o.standard, o.inputChains, o.outputChains) && o.id !in w.orders
    requires v == w.(orders := w.orders[o.id := o])
    ensures StatusInvariant(w) ==> StatusInvariant(v) && EdgesOrLateClaims(w, v)
  {
  }

  lemma NewOrderKeepsBus(w: World, v: World, o: Order)
    requires forall c :: c in w.bus ==> c.Key() in w.orders && ContInv(w.past, w.orders[c.Key()], c)
    requires o.id !in w.orders && v == w.(orders := w.orders[o.id := o])
    ensures forall c :: c in v.bus ==> c.Key() in v.orders && ContInv(v.past, v.orders[c.Key()], c)
    ensures Spends(v, o.id, None)
    ensures forall c :: c in v.bus ==> v.orders[c.Key()] == w.orders[c.Key()]
  {
  }

  // ----- recovery -----

  function RecoveryEffect(o: Order, readable: Receipts, canClaim: bool): Effect {
    var (p, next) := RecoverOrder(o, readable, canClaim);
    Effect(p, next, None, AsksFor(o, readable) && canClaim)
  }

  // Recovery publishes a continuation only on top of what the chain confirms.
  lemma RecoveryKeepsHashes(past: History, id: OrderId, o: Order, readable: Receipts, canClaim: bool)
    requires OrderInv(past, id, o) && Readable(readable, past.receipts)
    ensures EffectInv(past, id, o, RecoveryEffect(o, readable, canClaim))
  {
    var r := ReconcileWithBlockchain(o, readable);
    var e := RecoveryEffect(o, readable, canClaim);
    var later := PastAfter(past, id, e);
    if r.Ok? {
      OnlyStatusChanges(o, r.value, canClaim);
      ConfirmedSucceeded(past.receipts, readable);
      PublishedOnSuccess(past, later, id, o, EnsureCorrectState(o, r.value), r.value, readable, canClaim);
      var c := e.next;
      if c.Some? {
        ContIgnoresStatus(later, o, e.order.status, c.value);
      }
    }
    OrderIgnoresStatus(past, later, id, o, e.order.status);
  }

  lemma OrderIgnoresStatus(past: History, later: History, id: OrderId, o: Order, s: Status)
    requires OrderInv(past, id, o) && later == past.(claimable := later.claimable) && past.claimable <= later.claimable
    ensures OrderInv(later, id, o.(status := s))
  {
  }

  lemma PublishedOnSuccess(past: History, later: History, id: OrderId, o: Order, p: Order, r: ReconcileResult,
                           readable: Receipts, canClaim: bool)
    requires OrderInv(past, id, o) && ReconcileWithBlockchain(o, readable) == Ok(r)
    requires forall h, chain :: Confirmed(readable, h, chain) ==> Succeeded(past.receipts, h)
    requires p == o.(status := p.status)
    requires later == past.(claimable := if Asks(r) && canClaim then past.claimable + {id} else past.claimable)
    ensures var c := PublishFor(p, r, canClaim).1; c.Some? ==> c.value.Key() == id && ContInv(later, o, c.value)
  {
  }

  lemma ConfirmedSucceeded(receipts: Receipts, readable: Receipts)
    requires Readable(readable, receipts)
    ensures forall h, chain :: Confirmed(readable, h, chain) ==> Succeeded(receipts, h)
  {
  }

  // Recovery never touches a hash, a proof or the execution parameters.
  lemma OnlyStatusChanges(o: Order, r: ReconcileResult, canClaim: bool)
    ensures var p := PublishFor(EnsureCorrectState(o, r), r, canClaim).0; p == o.(status := p.status)
  {
    var corrected := EnsureCorrectState(o, r);
    if r.IsFinalized? {
      ThroughOnlyStatus(corrected, PathToFinalized(corrected.status));
    }
  }

  lemma {:induction false} ThroughOnlyStatus(o: Order, states: seq<Status>)
    ensures Through(o, states) == o.(status := Through(o, states).status)
    decreases |states|
  {
    if states != [] && IsValidTransition(o.status, states[0]) {
      ThroughOnlyStatus(o.(status := states[0]), states[1..]);
    }
  }

  // On a record whose status makes sense, recovery moves along one edge or not at all.
  lemma RecoveryKeepsStatus(past: History, id: OrderId, o: Order, readable: Receipts, canClaim: bool)
    requires OrderInv(past, id, o) && StatusInv(past, o) && Readable(readable, past.receipts)
    ensures EffectStatus(past, id, RecoveryEffect(o, readable, canClaim))
    ensures StatusMove(o.status, RecoverOrder(o, readable, canClaim).0.status)
    ensures !IsTerminal(o.status) ==> LiveEffect(past, id, RecoveryEffect(o, readable, canClaim))
  {
    var r := ReconcileWithBlockchain(o, readable);
    if r.Ok? {
      if IsTerminal(o.status) {
        TerminalKeepsStatus(past, id, o, r.value, readable, canClaim);
      } else {
        ConfirmedSucceeded(past.receipts, readable);
        ActiveOrderStatus(past, id, o, r.value, readable, canClaim);
      }
    }
  }

  // A terminal record is not written, and only a failed one can get a continuation.
  lemma TerminalKeepsStatus(past: History, id: OrderId, o: Order, r: ReconcileResult, readable: Receipts,
                            canClaim: bool)
    requires StatusInv(past, o) && IsTerminal(o.status)
    requires ReconcileWithBlockchain(o, readable) == Ok(r)
    ensures EffectStatus(past, id, RecoveryEffect(o, readable, canClaim))
    ensures RecoverOrder(o, readable, canClaim).0 == o
  {
    assert forall s :: Transitioned(o, s) == o;
  }

  lemma ActiveOrderStatus(past: History, id: OrderId, o: Order, r: ReconcileResult, readable: Receipts, canClaim: bool)
    requires OrderInv(past, id, o) && StatusInv(past, o) && !IsTerminal(o.status)
    requires ReconcileWithBlockchain(o, readable) == Ok(r)
    requires forall h, chain :: Confirmed(readable, h, chain) ==> Succeeded(past.receipts, h)
    ensures LiveEffect(past, id, RecoveryEffect(o, readable, canClaim))
    ensures StatusMove(o.status, RecoverOrder(o, readable, canClaim).0.status)
  {
    match r
    case HasFailed(_) => EndsTerminal(past, id, o, r, readable, canClaim);
    case IsFinalized => EndsTerminal(past, id, o, r, readable, canClaim);
    case NeedsMonitoring => MonitoredOrderStatus(past, id, o, r, readable, canClaim);
    case NeedsPreClaim(_) => LateOrderStatus(past, id, o, r, readable, canClaim);
    case NeedsClaim(_) => LateOrderStatus(past, id, o, r, readable, canClaim);
    case _ => EarlyOrderStatus(past, id, o, r, readable, canClaim);
  }

  lemma EarlyOrderStatus(past: History, id: OrderId, o: Order, r: ReconcileResult, readable: Receipts, canClaim: bool)
    requires OrderInv(past, id, o) && StatusInv(past, o) && !IsTerminal(o.status)
    requires ReconcileWithBlockchain(o, readable) == Ok(r)
    requires forall h, chain :: Confirmed(readable, h, chain) ==> Succeeded(past.receipts, h)
    requires r.NeedsExecution? || r.NeedsFill? || r.NeedsPostFill?
    ensures LiveEffect(past, id, RecoveryEffect(o, readable, canClaim))
    ensures StatusMove(o.status, RecoverOrder(o, readable, canClaim).0.status)
  {
  }

  lemma LateOrderStatus(past: History, id: OrderId, o: Order, r: ReconcileResult, readable: Receipts, canClaim: bool)
    requires OrderInv(past, id, o) && StatusInv(past, o) && !IsTerminal(o.status)
    requires ReconcileWithBlockchain(o, readable) == Ok(r)
    requires forall h, chain :: Confirmed(readable, h, chain) ==> Succeeded(past.receipts, h)
    requires r.NeedsPreClaim? || r.NeedsClaim?
    ensures LiveEffect(past, id, RecoveryEffect(o, readable, canClaim))
    ensures StatusMove(o.status, RecoverOrder(o, readable, canClaim).0.status)
  {
  }

  lemma MonitoredOrderStatus(past: History, id: OrderId, o: Order, r: ReconcileResult, readable: Receipts,
                             canClaim: bool)
    requires OrderInv(past, id, o) && StatusInv(past, o) && !IsTerminal(o.status)
    requires ReconcileWithBlockchain(o, readable) == Ok(r) && r.NeedsMonitoring?
    ensures LiveEffect(past, id, RecoveryEffect(o, readable, canClaim))
    ensures StatusMove(o.status, RecoverOrder(o, readable, canClaim).0.status)
  {
  }

  lemma EndsTerminal(past: History, id: OrderId, o: Order, r: ReconcileResult, readable: Receipts, canClaim: bool)
    requires OrderInv(past, id, o) && StatusInv(past, o) && !IsTerminal(o.status)
    requires ReconcileWithBlockchain(o, readable) == Ok(r) && (r.HasFailed? || r.IsFinalized?)
    ensures LiveEffect(past, id, RecoveryEffect(o, readable, canClaim))
    ensures RecoverOrder(o, readable, canClaim) == (o.(status := TargetStatus(o, r)), None)
    ensures IsValidTransition(o.status, TargetStatus(o, r))
  {
  }

  // One turn of the recovery loop is a step on one order that has no continuation.
  lemma RecoverNextIsLocal(w: World, u: World, readable: Receipts, canClaim: bool)
    requires w.recovering != [] && w.recovering[0] in w.orders
    requires u == w.(recovering := w.recovering[1..])
    ensures var id := w.recovering[0];
      RecoverNext(w, readable, canClaim) == Apply(u, id, None, RecoveryEffect(w.orders[id], readable, canClaim))
  {
    assert u.bus - Single(None) == u.bus;
    assert u.bus + Single(None) == u.bus;
  }

  lemma ShorterList(w: World, u: World)
    requires HashInvariant(w) && w.recovering != []
    requires u == w.(recovering := w.recovering[1..])
    ensures HashInvariant(u)
    ensures w.recovering[0] in u.orders && w.recovering[0] !in u.recovering && Spends(u, w.recovering[0], None)
    ensures StatusInvariant(w) ==> StatusInvariant(u)
  {
    assert w.recovering[0] in w.recovering;
    RestOfList(w.recovering);
  }

  lemma RestOfList(ids: seq<OrderId>)
    requires ids != [] && Distinct(ids)
    ensures Distinct(ids[1..]) && forall k :: k in ids[1..] ==> k in ids && k != ids[0]
  {
  }

  lemma ReconcileKeeps(w: World, readable: Receipts, canClaim: bool)
    requires HashInvariant(w) && Enabled(w, Reconcile(readable, canClaim))
    ensures Kept(w, Next(w, Reconcile(readable, canClaim)))
  {
    var id := w.recovering[0];
    var u := w.(recovering := w.recovering[1..]);
    ShorterList(w, u);
    RecoverNextIsLocal(w, u, readable, canClaim);
    RecoveryFits(u.past, id, u.orders[id], readable, canClaim);
    Conclude(u, RecoverNext(w, readable, canClaim), id, None, RecoveryEffect(u.orders[id], readable, canClaim));
  }

  lemma RecoveryFits(past: History, id: OrderId, o: Order, readable: Receipts, canClaim: bool)
    requires OrderInv(past, id, o) && Readable(readable, past.receipts)
    ensures EffectInv(past, id, o, RecoveryEffect(o, readable, canClaim))
    ensures CarriesOn(None, RecoveryEffect(o, readable, canClaim))
    ensures StatusInv(past, o) ==>
      && EffectStatus(past, id, RecoveryEffect(o, readable, canClaim))
      && StatusMove(o.status, RecoverOrder(o, readable, canClaim).0.status)
    ensures var (p, next) := RecoverOrder(o, readable, canClaim);
      StatusInv(past, o) && next.Some? && !IsTerminal(o.status) ==> !p.status.Failed?
  {
    RecoveryKeepsHashes(past, id, o, readable, canClaim);
    RecoveryCarriesNothing(o, readable, canClaim);
    if StatusInv(past, o) {
      RecoveryKeepsStatus(past, id, o, readable, canClaim);
    }
  }

  lemma RecoveryCarriesNothing(o: Order, readable: Receipts, canClaim: bool)
    ensures CarriesOn(None, RecoveryEffect(o, readable, canClaim))
  {
    var r := ReconcileWithBlockchain(o, readable);
    if r.Ok? {
      var p := EnsureCorrectState(o, r.value);
      assert RecoverOrder(o, readable, canClaim) == PublishFor(p, r.value, canClaim);
    }
  }

  // Recovery itself never leaves the table, resumed orders or not.
  lemma ReconcileFollowsTable(w: World, readable: Receipts, canClaim: bool)
    requires HashInvariant(w) && StatusInvariant(w) && Enabled(w, Reconcile(readable, canClaim))
    ensures EdgesOnly(w, Next(w, Reconcile(readable, canClaim)))
  {
    var id := w.recovering[0];
    assert id in w.recovering;
    RecoverNextIsLocal(w, w.(recovering := w.recovering[1..]), readable, canClaim);
    RecoveryKeepsStatus(w.past, id, w.orders[id], readable, canClaim);
    OneOrderEdges(w, RecoverNext(w, readable, canClaim), id, RecoverOrder(w.orders[id], readable, canClaim).0);
  }

  lemma OneOrderEdges(w: World, v: World, id: OrderId, o: Order)
    requires id in w.orders && v.orders == w.orders[id := o]
    ensures EdgesOnly(w, v) <==> StatusMove(w.orders[id].status, o.status)
  {
  }

  // ----- the two writes that skip the table -----

  // The statuses from which the unguarded writes of handle_preparation and handle_claim_confirmed are edges.
  predicate UnguardedWriteFits(s: Status, c: Cont, a: Answer) {
    && (c.Preparing? && a.Sent? ==> s.Created? || s.Pending?)
    && (c.Preparing? && a.NoTransaction? ==> s.Created? || s.Pending? || s.Executing?)
    && (c.TxConfirmed? && c.tx.Claim? && c.success ==> s.Settled? || s.PreClaimed? || s.Finalized?)
  }

  // Whatever the statuses are, a handler writes along the table exactly if these two fit.
  lemma HandlerWritesAnEdgeIff(w: World, c: Cont, a: Answer)
    requires HashInvariant(w) && Enabled(w, React(c, a))
    ensures c.Key() in w.orders
    ensures EdgesOnly(w, Next(w, React(c, a))) <==> UnguardedWriteFits(w.orders[c.Key()].status, c, a)
  {
    InvariantDrives(w, c);
    HandlerIsLocal(w, c, a);
    var o := w.orders[c.Key()];
    EffectIsEdgeIff(o, c, a, w.past.receipts);
    OneOrderEdges(w, Next(w, React(c, a)), c.Key(), EffectOf(o, c, a, w.past.receipts).order);
  }

  lemma EffectIsEdgeIff(o: Order, c: Cont, a: Answer, receipts: Receipts)
    ensures StatusMove(o.status, EffectOf(o, c, a, receipts).order.status) <==> UnguardedWriteFits(o.status, c, a)
  {
  }

  // ----- without resumed orders -----

  lemma ReactKeepsNoneResumed(w: World, c: Cont, a: Answer)
    requires HashInvariant(w) && StatusInvariant(w) && NoneResumed(w) && Enabled(w, React(c, a))
    ensures NoneResumed(Next(w, React(c, a)))
  {
    InvariantDrives(w, c);
    var o := w.orders[c.Key()];
    HandlerIsLocal(w, c, a);
    EffectKeepsHashes(w.past, o, c, a);
    EffectKeepsStatus(w.past, o, c, a);
    ApplyKeepsNoneResumed(w, c.Key(), Some(c), EffectOf(o, c, a, w.past.receipts));
  }

  lemma ReconcileKeepsNoneResumed(w: World, readable: Receipts, canClaim: bool)
    requires HashInvariant(w) && StatusInvariant(w) && NoneResumed(w)
    requires Enabled(w, Reconcile(readable, canClaim)) && !Resurrects(w, Reconcile(readable, canClaim))
    ensures NoneResumed(Next(w, Reconcile(readable, canClaim)))
  {
    var id := w.recovering[0];
    var u := w.(recovering := w.recovering[1..]);
    ShorterList(w, u);
    RecoverNextIsLocal(w, u, readable, canClaim);
    RecoveryFits(w.past, id, w.orders[id], readable, canClaim);
    ApplyKeepsNoneResumed(u, id, None, RecoveryEffect(w.orders[id], readable, canClaim));
  }

  lemma DiscoverKeepsNoneResumed(w: World, i: Intent, d: IntentDecision)
    requires HashInvariant(w) && NoneResumed(w) && Enabled(w, Discover(i, d))
    ensures NoneResumed(Next(w, Discover(i, d)))
  {
  }
}
