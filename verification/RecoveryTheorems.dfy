/** What recovery guarantees: nothing reachable is lost, it is idempotent, and when it overdoes its work. */
module RecoveryTheorems {
  import opened Wrappers
  import opened OrderTypes
  import opened Protocol
  import opened Recovery
  import opened Runs
  import opened Invariants
  import opened Preservation
  import opened RunTheorems

  // The chain list that reconciliation needs for the most advanced transaction is not empty.
  predicate LatestChainKnown(o: Order) {
    if o.claimTx.Some? || o.preClaimTx.Some? then o.inputChains != []
    else if o.postFillTx.Some? || o.fillTx.Some? then o.outputChains != []
    else o.prepareTx.Some? ==> o.inputChains != []
  }

  // ----- nothing is lost -----

  // Exactly one continuation of the order is live.
  ghost predicate Live(w: World, id: OrderId) {
    exists c :: c in w.bus && c.Key() == id && w.bus[c] == 1 && (forall d :: d in w.bus && d.Key() == id ==> d == c)
  }

  // The order has ended or is live again, if and only if it has execution parameters and the chain that
  // recovery must look at.
  ghost predicate Survives(w: World, v: World, id: OrderId)
    requires id in w.orders
  {
    && id in v.orders
    && (IsTerminal(v.orders[id].status) || Live(v, id)
        <==> w.orders[id].executionParams.Some? && LatestChainKnown(w.orders[id]))
  }

  // A recovery started at any moment of any run loses no active order that it loads.
  lemma RecoveryLosesNothing(r: Run, i: nat, loaded: seq<OrderId>, seen: set<OrderId>,
                             readable: Receipts, canClaim: OrderId -> bool)
    requires IsRun(r) && i < |r.worlds|
    requires Enabled(r.worlds[i], Crash(loaded, seen)) && Readable(readable, r.worlds[i].past.receipts)
    ensures var w := r.worlds[i];
      var v := RecoverAll(Restart(w, loaded, seen), readable, canClaim);
      forall id :: id in loaded && !IsTerminal(w.orders[id].status) ==> Survives(w, v, id)
  {
    HashInvariantHolds(r, i);
    StatusInvariantHolds(r, i);
    LoadedOrdersSurvive(r.worlds[i], loaded, seen, readable, canClaim);
  }

  lemma LoadedOrdersSurvive(w: World, loaded: seq<OrderId>, seen: set<OrderId>,
                            readable: Receipts, canClaim: OrderId -> bool)
    requires HashInvariant(w) && StatusInvariant(w) && Readable(readable, w.past.receipts)
    requires Distinct(loaded) && forall id :: id in loaded ==> id in w.orders
    ensures var v := RecoverAll(Restart(w, loaded, seen), readable, canClaim);
      forall id :: id in loaded && !IsTerminal(w.orders[id].status) ==> Survives(w, v, id)
  {
    var w0 := Restart(w, loaded, seen);
    var v := RecoverAll(w0, readable, canClaim);
    RecoverAllIsPointwise(w0, readable, canClaim);
    forall id | id in loaded && !IsTerminal(w.orders[id].status)
      ensures Survives(w, v, id)
    {
      assert OrderInv(w.past, id, w.orders[id]) && StatusInv(w.past, w.orders[id]);
      ActiveOrderResumes(w.past, id, w.orders[id], readable, canClaim(id));
      LiveIffPublished(w0, v, id, readable, canClaim);
    }
  }

  // After the whole loop an order is live exactly if its own turn published something.
  lemma LiveIffPublished(w: World, v: World, id: OrderId, readable: Receipts, canClaim: OrderId -> bool)
    requires w.bus == multiset{} && id in w.recovering && id in w.orders && w.orders[id].id == id
    requires Pointwise(w, v, readable, canClaim)
    ensures Live(v, id) <==> RecoverOrder(w.orders[id], readable, canClaim(id)).1.Some?
  {
    PublishedForItsOrder(w.orders[id], readable, canClaim(id));
    var next := RecoverOrder(w.orders[id], readable, canClaim(id)).1;
    forall c: Cont | c.Key() == id
      ensures v.bus[c] == if next == Some(c) then 1 else 0
    {
    }
    if next.Some? {
      assert next.value in v.bus;
    }
  }

  // One turn of the loop, with whatever the chain does between the turns.
  lemma TurnLosesNothing(r: Run, i: nat)
    requires IsRun(r) && i < |r.labels| && r.labels[i].Reconcile?
    ensures r.worlds[i].recovering != [] && r.worlds[i].recovering[0] in r.worlds[i].orders
    ensures var id := r.worlds[i].recovering[0];
      !IsTerminal(r.worlds[i].orders[id].status) ==> Survives(r.worlds[i], r.worlds[i + 1], id)
  {
    var w := r.worlds[i];
    assert StepAt(r, i);
    HashInvariantHolds(r, i);
    StatusInvariantHolds(r, i);
    var id := w.recovering[0];
    assert id in w.recovering;
    if !IsTerminal(w.orders[id].status) {
      ActiveTurnSurvives(w, r.labels[i].readable, r.labels[i].canClaim);
    }
  }

  lemma ActiveTurnSurvives(w: World, readable: Receipts, canClaim: bool)
    requires HashInvariant(w) && StatusInvariant(w) && Enabled(w, Reconcile(readable, canClaim))
    requires w.recovering[0] in w.orders && !IsTerminal(w.orders[w.recovering[0]].status)
    ensures Survives(w, RecoverNext(w, readable, canClaim), w.recovering[0])
  {
    var id := w.recovering[0];
    var o := w.orders[id];
    var u := w.(recovering := w.recovering[1..]);
    ShorterList(w, u);
    RecoverNextIsLocal(w, u, readable, canClaim);
    assert OrderInv(w.past, id, o) && StatusInv(w.past, o);
    ActiveOrderResumes(w.past, id, o, readable, canClaim);
    RecoveryFits(w.past, id, o, readable, canClaim);
    var e := RecoveryEffect(o, readable, canClaim);
    BusAfter(u, id, None, e);
    if e.next.Some? {
      assert e.next.value in RecoverNext(w, readable, canClaim).bus;
    }
  }

  lemma ActiveOrderResumes(past: History, id: OrderId, o: Order, readable: Receipts, canClaim: bool)
    requires OrderInv(past, id, o) && StatusInv(past, o) && !IsTerminal(o.status)
    ensures var (p, next) := RecoverOrder(o, readable, canClaim);
      IsTerminal(p.status) || next.Some? <==> o.executionParams.Some? && LatestChainKnown(o)
  {
    var r := ReconcileWithBlockchain(o, readable);
    if r.Ok? {
      if r.value.HasFailed? || r.value.IsFinalized? {
        EndsTerminal(past, id, o, r.value, readable, canClaim);
      }
    }
  }

  // ----- a successful claim -----

  // On any record at all, a claim that succeeded ends Finalized unless the status is Created, Pending
  // or Failed: from those the table has no path that recovery tries.
  lemma ClaimSuccessEndsFinalized(o: Order, receipts: Receipts, canClaim: bool)
    requires o.claimTx.Some? && o.inputChains != [] && Confirmed(receipts, o.claimTx.value, o.inputChains[0])
    ensures RecoverOrder(o, receipts, canClaim).0.status.Finalized?
      <==> !(o.status.Created? || o.status.Pending? || o.status.Failed?)
  {
    var p := EnsureCorrectState(o, IsFinalized);
    match p.status
    case Executing =>
      ThroughThree(p, Executed, Settled, Finalized);
    case Executed =>
      ThroughThree(p.(status := Status.Executing), Executed, Settled, Finalized);
    case PostFilled =>
      assert Through(p, [Settled, Finalized]) == Through(p.(status := Settled), [Finalized]);
      assert Through(p.(status := Settled), [Finalized]) == p.(status := Finalized);
    case _ =>
  }

  // In any run, recovering an order with a claim ends Finalized exactly if it was Finalized, or had not failed
  // and the claim is read as a success. A success that cannot be read fails the order.
  lemma ReachableClaimEndsFinalized(r: Run, i: nat, id: OrderId, readable: Receipts, canClaim: bool)
    requires IsRun(r) && i < |r.worlds| && id in r.worlds[i].orders
    requires r.worlds[i].orders[id].claimTx.Some? && r.worlds[i].orders[id].inputChains != []
    ensures var o := r.worlds[i].orders[id];
      var s := RecoverOrder(o, readable, canClaim).0.status;
      var success := Confirmed(readable, o.claimTx.value, o.inputChains[0]);
      && (s.Finalized? <==> o.status.Finalized? || (success && !o.status.Failed?))
      && (!success && !IsTerminal(o.status) ==> s == Failed(Claim))
  {
    StatusInvariantHolds(r, i);
    var o := r.worlds[i].orders[id];
    assert StatusInv(r.worlds[i].past, o);
    if Confirmed(readable, o.claimTx.value, o.inputChains[0]) {
      ClaimSuccessEndsFinalized(o, readable, canClaim);
    }
  }

  lemma ThroughThree(o: Order, a: Status, b: Status, c: Status)
    requires IsValidTransition(o.status, a) && IsValidTransition(a, b) && IsValidTransition(b, c)
    ensures Through(o, [a, b, c]) == o.(status := c)
    ensures Through(o.(status := a), [b, c]) == o.(status := c)
  {
    assert [a, b, c][1..] == [b, c];
    assert [b, c][1..] == [c];
    assert Through(o.(status := b), [c]) == Through(o.(status := c), []);
  }

  // ----- resurrection -----

  // The most advanced transaction is on chain as a success, or there is none and the order may execute.
  predicate LatestConfirmed(o: Order, receipts: Receipts) {
    if o.preClaimTx.Some? then o.inputChains != [] && Confirmed(receipts, o.preClaimTx.value, o.inputChains[0])
    else if o.postFillTx.Some? then o.outputChains != [] && Confirmed(receipts, o.postFillTx.value, o.outputChains[0])
    else if o.fillTx.Some? then o.outputChains != [] && Confirmed(receipts, o.fillTx.value, o.outputChains[0])
    else if o.prepareTx.Some? then o.inputChains != [] && Confirmed(receipts, o.prepareTx.value, o.inputChains[0])
    else o.executionParams.Some?
  }

  // Recovery never writes to a terminal order, but it publishes an event for it, and so brings it back
  // to life, exactly when the order is unclaimed and its latest transaction succeeded after all.
  lemma TerminalOrderResurrectsIff(past: History, id: OrderId, o: Order, readable: Receipts, canClaim: bool)
    requires OrderInv(past, id, o) && IsTerminal(o.status)
    ensures RecoverOrder(o, readable, canClaim).0 == o
    ensures RecoverOrder(o, readable, canClaim).1.Some? <==> o.claimTx.None? && LatestConfirmed(o, readable)
  {
    TerminalIsNotWritten(o, readable, canClaim);
  }

  lemma TerminalIsNotWritten(o: Order, readable: Receipts, canClaim: bool)
    requires IsTerminal(o.status)
    ensures RecoverOrder(o, readable, canClaim).0 == o
    ensures var r := ReconcileWithBlockchain(o, readable); r.Ok? ==> EnsureCorrectState(o, r.value) == o
  {
    assert forall s :: Transitioned(o, s) == o;
  }


  // ----- the whole loop, in any order -----

  lemma PublishedForItsOrder(o: Order, receipts: Receipts, canClaim: bool)
    ensures var next := RecoverOrder(o, receipts, canClaim).1; next.Some? ==> next.value.Key() == o.id
  {
    var r := ReconcileWithBlockchain(o, receipts);
    if r.Ok? && !r.value.IsFinalized? && !r.value.HasFailed? {
      assert EnsureCorrectState(o, r.value).id == o.id;
    }
  }

  // What recovery publishes for continuation c when its order is on the list.
  ghost predicate PublishedBy(w: World, readable: Receipts, canClaim: OrderId -> bool, c: Cont) {
    && c.Key() in w.recovering && c.Key() in w.orders
    && RecoverOrder(w.orders[c.Key()], readable, canClaim(c.Key())).1 == Some(c)
  }

  ghost predicate StoredUnderOwnId(w: World) {
    forall id :: id in w.orders ==> w.orders[id].id == id
  }

  // The loop treats every listed order alone: the order of the list does not matter.
  ghost predicate Pointwise(w: World, v: World, readable: Receipts, canClaim: OrderId -> bool) {
    && v.orders.Keys == w.orders.Keys && v.past.receipts == w.past.receipts && v.recovering == []
    && (forall id :: id in w.orders && id !in w.recovering ==> v.orders[id] == w.orders[id])
    && (forall id :: id in w.orders && id in w.recovering ==>
          v.orders[id] == RecoverOrder(w.orders[id], readable, canClaim(id)).0)
    && (forall c :: v.bus[c] == w.bus[c] + if PublishedBy(w, readable, canClaim, c) then 1 else 0)
  }

  lemma {:induction false} RecoverAllIsPointwise(w: World, readable: Receipts, canClaim: OrderId -> bool)
    requires Distinct(w.recovering) && StoredUnderOwnId(w)
    requires forall id :: id in w.recovering ==> id in w.orders
    ensures Pointwise(w, RecoverAll(w, readable, canClaim), readable, canClaim)
    decreases |w.recovering|
  {
    if w.recovering != [] {
      var id := w.recovering[0];
      var u := RecoverNext(w, readable, canClaim(id));
      HeadAndRest(w.recovering);
      OneTurn(w, u, readable, canClaim);
      RecoverAllIsPointwise(u, readable, canClaim);
      TurnsCompose(w, u, RecoverAll(u, readable, canClaim), readable, canClaim);
    }
  }

  ghost predicate Turned(w: World, u: World, readable: Receipts, canClaim: OrderId -> bool)
    requires w.recovering != [] && w.recovering[0] in w.orders
  {
    var id := w.recovering[0];
    var (o, next) := RecoverOrder(w.orders[id], readable, canClaim(id));
    && u.orders == w.orders[id := o] && u.past.receipts == w.past.receipts
    && u.recovering == w.recovering[1..]
    && u.bus == w.bus + Single(next)
    && o.id == id && (next.Some? ==> next.value.Key() == id)
  }

  lemma HeadAndRest(ids: seq<OrderId>)
    requires ids != [] && Distinct(ids)
    ensures Distinct(ids[1..]) && ids[0] !in ids[1..]
    ensures forall id :: id in ids <==> id == ids[0] || id in ids[1..]
  {
    assert ids == [ids[0]] + ids[1..];
  }

  lemma OneTurn(w: World, u: World, readable: Receipts, canClaim: OrderId -> bool)
    requires w.recovering != [] && StoredUnderOwnId(w) && w.recovering[0] in w.orders
    requires u == RecoverNext(w, readable, canClaim(w.recovering[0]))
    ensures Turned(w, u, readable, canClaim) && StoredUnderOwnId(u)
  {
    var id := w.recovering[0];
    PublishedForItsOrder(w.orders[id], readable, canClaim(id));
    KeepsId(w.orders[id], readable, canClaim(id));
    assert w.bus + Single(None) == w.bus;
  }

  lemma KeepsId(o: Order, receipts: Receipts, canClaim: bool)
    ensures RecoverOrder(o, receipts, canClaim).0.id == o.id
  {
    var r := ReconcileWithBlockchain(o, receipts);
    if r.Ok? {
      OnlyStatusChanges(o, r.value, canClaim);
      assert EnsureCorrectState(o, r.value).id == o.id;
    }
  }

  lemma TurnsCompose(w: World, u: World, v: World, readable: Receipts, canClaim: OrderId -> bool)
    requires w.recovering != [] && w.recovering[0] in w.orders && Turned(w, u, readable, canClaim)
    requires w.recovering[0] !in u.recovering
    requires forall id :: id in w.recovering <==> id == w.recovering[0] || id in u.recovering
    requires Pointwise(u, v, readable, canClaim)
    ensures Pointwise(w, v, readable, canClaim)
  {
    var id := w.recovering[0];
    forall c
      ensures v.bus[c] == w.bus[c] + if PublishedBy(w, readable, canClaim, c) then 1 else 0
    {
      assert v.bus[c] == u.bus[c] + if PublishedBy(u, readable, canClaim, c) then 1 else 0;
      if c.Key() != id && c.Key() in w.orders {
        assert u.orders[c.Key()] == w.orders[c.Key()];
      }
    }
  }

  // ----- idempotence -----

  // On every record, reachable or not: a second recovery finds nothing left to write and publishes
  // the same event again.
  lemma RecoverOrderTwice(o: Order, receipts: Receipts, canClaim: bool)
    ensures var (p, next) := RecoverOrder(o, receipts, canClaim); RecoverOrder(p, receipts, canClaim) == (p, next)
  {
    var r := ReconcileWithBlockchain(o, receipts);
    if r.Ok? {
      var corrected := EnsureCorrectState(o, r.value);
      OnlyStatusChanges(o, r.value, canClaim);
      var p := RecoverOrder(o, receipts, canClaim).0;
      assert ReconcileWithBlockchain(p, receipts) == r;
      if r.value.IsFinalized? {
        FinalizedTwice(o);
      }
    }
  }

  lemma FinalizedTwice(o: Order)
    ensures var p := PublishFor(EnsureCorrectState(o, IsFinalized), IsFinalized, false).0;
      PublishFor(EnsureCorrectState(p, IsFinalized), IsFinalized, false).0 == p
  {
    var q := EnsureCorrectState(o, IsFinalized);
    match q.status
    case Executing => ThroughThree(q, Executed, Settled, Finalized);
    case Executed => ThroughThree(q.(status := Status.Executing), Executed, Settled, Finalized);
    case PostFilled =>
      assert Through(q, [Settled, Finalized]) == Through(q.(status := Settled), [Finalized]);
      assert Through(q.(status := Settled), [Finalized]) == q.(status := Finalized);
    case _ =>
  }

  // An active order that recovery ends is not published for.
  lemma EndedOrdersAreSilent(o: Order, receipts: Receipts, canClaim: bool)
    requires !IsTerminal(o.status)
    ensures var (p, next) := RecoverOrder(o, receipts, canClaim); IsTerminal(p.status) ==> next.None?
  {
    var r := ReconcileWithBlockchain(o, receipts);
    if r.Ok? && !r.value.IsFinalized? && !r.value.HasFailed? {
      assert !IsTerminal(TargetStatus(o, r.value));
      assert !IsTerminal(EnsureCorrectState(o, r.value).status);
    }
  }

  // The list that load_active_orders documents, in whatever order the store yields it.
  ghost predicate IsActiveList(orders: map<OrderId, Order>, ids: seq<OrderId>) {
    Distinct(ids) && forall id :: id in ids <==> id in orders && LoadedAsDocumented(orders[id])
  }

  // The list that it really returns.
  ghost predicate IsWrittenList(orders: map<OrderId, Order>, ids: seq<OrderId>) {
    Distinct(ids) && forall id :: id in ids <==> id in orders && LoadedAsWritten(orders[id])
  }

  // Two restarts that load in the same way.
  ghost predicate AreLists(orders: map<OrderId, Order>, ids: seq<OrderId>,
                           later: map<OrderId, Order>, idsLater: seq<OrderId>)
  {
    || (IsActiveList(orders, ids) && IsActiveList(later, idsLater))
    || (IsWrittenList(orders, ids) && IsWrittenList(later, idsLater))
  }

  function RestartAndRecover(w: World, loaded: seq<OrderId>, seen: set<OrderId>, readable: Receipts,
                             canClaim: OrderId -> bool): World
  {
    RecoverAll(Restart(w, loaded, seen), readable, canClaim)
  }

  // ----- a stage whose transaction was lost -----

  predicate SameStage(c: Cont, d: Cont) {
    || (c.Preparing? && d.Preparing?) || (c.Executing? && d.Executing?) || (c.PostFillReady? && d.PostFillReady?)
    || (c.PreClaimReady? && d.PreClaimReady?) || (c.ClaimReady? && d.ClaimReady?)
  }

  // When recovery starts the stage of c again: on top of the latest transaction that is stored. A preparation
  // is never repeated, a pre-claim or a claim only where recovery would lead to it and can_claim says yes.
  predicate Repeats(o: Order, c: Cont, readable: Receipts, canClaim: bool) {
    && LatestConfirmed(o, readable)
    && (c.Executing? || c.PostFillReady?
        || (c.PreClaimReady? && o.preClaimTx.None? && o.postFillTx.None? && canClaim)
        || (c.ClaimReady? && o.preClaimTx.Some? && canClaim))
  }

  lemma LostStageRecovers(past: History, o: Order, c: Cont, readable: Receipts, canClaim: bool)
    requires OrderInv(past, c.Key(), o) && StatusInv(past, o) && Sends(c)
    requires ContInv(past, o, c) && MayLive(c, o.status)
    ensures var next := RecoverOrder(o, readable, canClaim).1;
      && (next.Some? <==> LatestConfirmed(o, readable))
      && (next.Some? && SameStage(c, next.value) <==> Repeats(o, c, readable, canClaim))
  {
    var r := ReconcileWithBlockchain(o, readable);
    if r.Ok? {
      var p := EnsureCorrectState(o, r.value);
      assert p == o.(status := p.status);
      assert RecoverOrder(o, readable, canClaim) == PublishFor(p, r.value, canClaim);
    }
  }

  // A process dies after a delivery, before its hash is written. The record is as before, and the next recovery
  // starts the stage again exactly under that condition; it resumes the order at all exactly if the latest
  // stored transaction is read as a success.
  lemma LostStageIsRepeatedIff(r: Run, i: nat, readable: Receipts, canClaim: OrderId -> bool)
    requires IsRun(r) && i < |r.labels| && LosesHash(r.labels[i])
    requires r.labels[i].cont.Key() in r.labels[i].loaded
    ensures var c := r.labels[i].cont;
      var id, v := c.Key(), RecoverAll(r.worlds[i + 1], readable, canClaim);
      && id in r.worlds[i].orders && r.worlds[i + 1].orders == r.worlds[i].orders
      && var o := r.worlds[i].orders[id];
         && ((exists d :: d in v.bus && d.Key() == id && SameStage(c, d)) <==> Repeats(o, c, readable, canClaim(id)))
         && (Live(v, id) <==> LatestConfirmed(o, readable))
  {
    var w, u, c := r.worlds[i], r.worlds[i + 1], r.labels[i].cont;
    var id := c.Key();
    assert StepAt(r, i);
    HashInvariantHolds(r, i);
    StatusInvariantHolds(r, i);
    StepOrders(w, r.labels[i]);
    LostOrder(w, c);
    LostStageRecovers(w.past, w.orders[id], c, readable, canClaim(id));
    RecoveredWorld(u, id, readable, canClaim);
  }

  lemma LostOrder(w: World, c: Cont)
    requires HashInvariant(w) && StatusInvariant(w) && c in w.bus
    ensures c.Key() in w.orders
    ensures var o := w.orders[c.Key()];
      OrderInv(w.past, c.Key(), o) && StatusInv(w.past, o) && ContInv(w.past, o, c) && MayLive(c, o.status)
    ensures StoredUnderOwnId(w)
  {
  }

  // After a whole recovery, what is in flight for a listed order is what its own turn published.
  lemma RecoveredWorld(w: World, id: OrderId, readable: Receipts, canClaim: OrderId -> bool)
    requires w.bus == multiset{} && Distinct(w.recovering) && StoredUnderOwnId(w)
    requires id in w.recovering && forall k :: k in w.recovering ==> k in w.orders
    ensures var v, next := RecoverAll(w, readable, canClaim), RecoverOrder(w.orders[id], readable, canClaim(id)).1;
      && (forall d :: d in v.bus && d.Key() == id <==> next == Some(d))
      && (Live(v, id) <==> next.Some?)
  {
    var v := RecoverAll(w, readable, canClaim);
    RecoverAllIsPointwise(w, readable, canClaim);
    LiveIffPublished(w, v, id, readable, canClaim);
    PublishedForItsOrder(w.orders[id], readable, canClaim(id));
    forall d: Cont
      ensures d in v.bus && d.Key() == id <==> RecoverOrder(w.orders[id], readable, canClaim(id)).1 == Some(d)
    {
      assert v.bus[d] == if PublishedBy(w, readable, canClaim, d) then 1 else 0;
    }
  }

  // ----- with the lists that are loaded -----

  // With the list that is really returned, every active order is loaded, so none is lost.
  lemma EveryActiveOrderSurvives(w: World, loaded: seq<OrderId>, seen: set<OrderId>, readable: Receipts,
                                 canClaim: OrderId -> bool)
    requires IsWrittenList(w.orders, loaded)
    ensures HashInvariant(w) && StatusInvariant(w) && Readable(readable, w.past.receipts) ==>
      forall id :: id in w.orders && !IsTerminal(w.orders[id].status) ==>
        Survives(w, RestartAndRecover(w, loaded, seen, readable, canClaim), id)
  {
    LoadMatchesDocumentation(w.orders);
    if HashInvariant(w) && StatusInvariant(w) && Readable(readable, w.past.receipts) {
      LoadedOrdersSurvive(w, loaded, seen, readable, canClaim);
    }
  }

  // With the chain and the answers of can_claim fixed, crashing again right after recovery and recovering
  // once more leaves the same records and the same continuations, over any store: with the lists that are
  // documented, and with those that are loaded.
  lemma RecoveryIsIdempotent(w: World, first: seq<OrderId>, second: seq<OrderId>, seen: set<OrderId>,
                             readable: Receipts, canClaim: OrderId -> bool)
    requires StoredUnderOwnId(w)
    requires AreLists(w.orders, first, RestartAndRecover(w, first, seen, readable, canClaim).orders, second)
    ensures var once := RestartAndRecover(w, first, seen, readable, canClaim);
      var twice := RestartAndRecover(once, second, seen, readable, canClaim);
      twice.orders == once.orders && twice.bus == once.bus
  {
    var w0 := Restart(w, first, seen);
    var once := RecoverAll(w0, readable, canClaim);
    RecoverAllIsPointwise(w0, readable, canClaim);
    SameIds(w0, once, readable, canClaim);
    var w1 := Restart(once, second, seen);
    SecondList(w.orders, first, once.orders, second);
    RecoverAllIsPointwise(w1, readable, canClaim);
    TwiceIsOnce(w0, once, w1, RecoverAll(w1, readable, canClaim), readable, canClaim);
  }

  lemma TwiceIsOnce(w0: World, once: World, w1: World, twice: World, readable: Receipts, canClaim: OrderId -> bool)
    requires Pointwise(w0, once, readable, canClaim) && Pointwise(w1, twice, readable, canClaim)
    requires w0.bus == multiset{} && w1.bus == multiset{} && w1.orders == once.orders
    requires forall id :: id in w1.recovering ==> id in w0.recovering
    requires forall id :: id in w0.recovering && id !in w1.recovering ==>
      id in w1.orders && !IsTerminal(w0.orders[id].status) && IsTerminal(w1.orders[id].status)
    ensures twice.orders == once.orders && twice.bus == once.bus
  {
    SameRecords(w0, w1, twice, readable, canClaim);
    forall c
      ensures twice.bus[c] == once.bus[c]
    {
      SamePublication(w0, w1, readable, canClaim, c);
    }
  }

  // The second list holds what is still active, or everything that the first one held.
  lemma SecondList(orders: map<OrderId, Order>, first: seq<OrderId>, later: map<OrderId, Order>, second: seq<OrderId>)
    requires AreLists(orders, first, later, second) && later.Keys == orders.Keys
    requires forall id :: id in orders && id !in first ==> later[id] == orders[id]
    ensures Distinct(first) && Distinct(second) && forall id :: id in first ==> id in orders
    ensures forall id :: id in second ==> id in first
    ensures forall id :: id in first && id !in second ==>
      id in later && !IsTerminal(orders[id].status) && IsTerminal(later[id].status)
  {
    forall id | id in orders && id in later
      ensures LoadedAsWritten(orders[id]) && LoadedAsWritten(later[id])
    {
      IndexValueNeverExcluded(orders[id].status);
      IndexValueNeverExcluded(later[id].status);
    }
  }

  lemma SameIds(w: World, v: World, readable: Receipts, canClaim: OrderId -> bool)
    requires StoredUnderOwnId(w) && Pointwise(w, v, readable, canClaim)
    ensures StoredUnderOwnId(v)
  {
    forall id | id in v.orders
      ensures v.orders[id].id == id
    {
      KeepsId(w.orders[id], readable, canClaim(id));
    }
  }

  // The second recovery finds every record as it would leave it.
  lemma SameRecords(w0: World, w1: World, twice: World, readable: Receipts, canClaim: OrderId -> bool)
    requires w1.orders.Keys == w0.orders.Keys
    requires forall id :: id in w1.recovering ==> id in w0.recovering
    requires forall id :: id in w0.orders && id in w0.recovering ==>
      w1.orders[id] == RecoverOrder(w0.orders[id], readable, canClaim(id)).0
    requires Pointwise(w1, twice, readable, canClaim)
    ensures twice.orders == w1.orders
  {
    forall id | id in w1.orders
      ensures twice.orders[id] == w1.orders[id]
    {
      if id in w1.recovering {
        RecoverOrderTwice(w0.orders[id], readable, canClaim(id));
      }
    }
  }

  // It publishes again what the first one published; orders that are no longer listed had got nothing.
  lemma SamePublication(w0: World, w1: World, readable: Receipts, canClaim: OrderId -> bool, c: Cont)
    requires w1.orders.Keys == w0.orders.Keys
    requires forall id :: id in w1.recovering ==> id in w0.recovering
    requires forall id :: id in w0.recovering && id !in w1.recovering ==>
      id in w1.orders && !IsTerminal(w0.orders[id].status) && IsTerminal(w1.orders[id].status)
    requires forall id :: id in w0.orders && id in w0.recovering ==>
      w1.orders[id] == RecoverOrder(w0.orders[id], readable, canClaim(id)).0
    ensures PublishedBy(w0, readable, canClaim, c) <==> PublishedBy(w1, readable, canClaim, c)
  {
    var id := c.Key();
    if id in w0.recovering && id in w0.orders {
      RecoverOrderTwice(w0.orders[id], readable, canClaim(id));
      if id !in w1.recovering {
        EndedOrdersAreSilent(w0.orders[id], readable, canClaim(id));
      }
    }
  }
}
