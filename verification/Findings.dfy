/** Where the code does not do what its documentation promises, with the exact conditions. */
module Findings {
  import opened Wrappers
  import opened OrderTypes
  import opened Protocol
  import opened Recovery
  import opened Runs
  import opened Invariants
  import opened Preservation
  import opened RunTheorems
  import opened RecoveryTheorems

  // ----- recovery as written loads terminal orders -----

  ghost predicate IsWrittenLoad(l: Label, v: World) {
    l.Crash? || l.Tear? ==> forall id :: id in l.loaded <==> id in v.orders && LoadedAsWritten(v.orders[id])
  }

  // Every restart loads what the filter of load_active_orders really selects.
  ghost predicate LoadsAsWritten(r: Run) {
    IsRun(r) && forall i :: 0 <= i < |r.labels| ==> IsWrittenLoad(r.labels[i], r.worlds[i + 1])
  }

  function Last(r: Run): World
    requires r.worlds != []
  {
    r.worlds[|r.worlds| - 1]
  }

  lemma Extend(r: Run, l: Label) returns (s: Run)
    requires LoadsAsWritten(r) && Enabled(Last(r), l) && IsWrittenLoad(l, Next(Last(r), l))
    ensures LoadsAsWritten(s) && s.worlds == r.worlds + [Next(Last(r), l)] && s.labels == r.labels + [l]
  {
    s := Run(r.worlds + [Next(Last(r), l)], r.labels + [l]);
    forall i | 0 <= i < |s.labels|
      ensures StepAt(s, i) && IsWrittenLoad(s.labels[i], s.worlds[i + 1])
    {
      if i < |r.labels| {
        assert StepAt(r, i) && IsWrittenLoad(r.labels[i], r.worlds[i + 1]);
      }
    }
  }

  // ----- runs of one order -----

  const PARAMS := ExecutionParams(1, None)
  const PROOF := FillProof(1, 5, 6)
  const ACCEPTED := NewOrder("o", "eip7683", [3], [7])
  const EXECUTING := ACCEPTED.(executionParams := Some(PARAMS), status := Status.Executing)
  const FILLING := EXECUTING.(fillTx := Some(1))

  // The run has reached a world that holds only this order, with this continuation and this past.
  ghost predicate At(r: Run, o: Order, next: Option<Cont>, receipts: Receipts, sent: set<Hash>) {
    LoadsAsWritten(r) && Holds(Last(r), o, next, receipts, sent)
  }

  ghost predicate Holds(w: World, o: Order, next: Option<Cont>, receipts: Receipts, sent: set<Hash>) {
    && w.orders == map["o" := o] && o.id == "o"
    && w.bus == Single(next) && (next.Some? ==> next.value.Key() == "o")
    && w.past.receipts == receipts && w.recovering == []
    && w.past.sent.Keys == sent
    && (forall h :: h in sent ==> h in w.txIndex && w.txIndex[h] == "o")
  }

  function SentAfter(sent: set<Hash>, e: Effect): set<Hash> {
    if e.tx.Some? then sent + {e.tx.value.1} else sent
  }

  lemma Moves(r: Run, o: Order, c: Cont, a: Answer, receipts: Receipts, sent: set<Hash>) returns (s: Run)
    requires At(r, o, Some(c), receipts, sent)
    requires a.Sent? ==> a.hash !in sent
    requires c.TxConfirmed? ==>
      c.hash in sent && (c.tx.PostFill? ==> o.fillTx.Some?) && (c.tx.Prepare? ==> o.executionParams.Some?)
    requires var next := EffectOf(o, c, a, receipts).next; next.Some? ==> next.value.Key() == "o"
    requires EffectOf(o, c, a, receipts).order.id == "o"
    ensures var e := EffectOf(o, c, a, receipts); At(s, e.order, e.next, receipts, SentAfter(sent, e))
  {
    Handles(Last(r), o, c, a, receipts, sent);
    s := Extend(r, React(c, a));
  }

  lemma Handles(w: World, o: Order, c: Cont, a: Answer, receipts: Receipts, sent: set<Hash>)
    requires Holds(w, o, Some(c), receipts, sent)
    requires a.Sent? ==> a.hash !in sent
    requires c.TxConfirmed? ==>
      c.hash in sent && (c.tx.PostFill? ==> o.fillTx.Some?) && (c.tx.Prepare? ==> o.executionParams.Some?)
    requires var next := EffectOf(o, c, a, receipts).next; next.Some? ==> next.value.Key() == "o"
    requires EffectOf(o, c, a, receipts).order.id == "o"
    ensures Enabled(w, React(c, a))
    ensures
      var e := EffectOf(o, c, a, receipts);
      Holds(Next(w, React(c, a)), e.order, e.next, receipts, SentAfter(sent, e))
  {
    HandlerIsLocal(w, c, a);
    Applied(w, Next(w, React(c, a)), o, c, EffectOf(o, c, a, receipts), receipts, sent);
  }

  lemma Applied(w: World, v: World, o: Order, c: Cont, e: Effect, receipts: Receipts, sent: set<Hash>)
    requires Holds(w, o, Some(c), receipts, sent) && SameButIntents(v, Apply(w, "o", Some(c), e))
    requires e.order.id == "o" && (e.next.Some? ==> e.next.value.Key() == "o")
    ensures Holds(v, e.order, e.next, receipts, SentAfter(sent, e))
  {
    assert w.bus - multiset{c} == multiset{};
  }

  lemma Mines(r: Run, o: Order, next: Option<Cont>, receipts: Receipts, sent: set<Hash>, chain: ChainId, h: Hash)
    returns (s: Run)
    requires At(r, o, next, receipts, sent) && h in sent && (chain, h) !in receipts
    ensures At(s, o, next, receipts[(chain, h) := true], sent)
  {
    s := Extend(r, Mine(chain, h, true));
  }

  // A delivered transaction is awaited, mined as a success, and reported.
  lemma Confirms(r: Run, o: Order, t: TxType, h: Hash, chain: ChainId, receipts: Receipts, sent: set<Hash>)
    returns (s: Run)
    requires At(r, o, Some(TxPending("o", h, t, chain)), receipts, sent)
    requires h in sent && (chain, h) !in receipts
    ensures At(s, o, Some(TxConfirmed("o", h, t, true)), receipts[(chain, h) := true], sent)
  {
    s := Moves(r, o, TxPending("o", h, t, chain), Done, receipts, sent);
    s := Mines(s, o, Some(TxMonitor("o", h, t, chain)), receipts, sent, chain, h);
    s := Moves(s, o, TxMonitor("o", h, t, chain), Done, receipts[(chain, h) := true], sent);
  }

  // The fill is confirmed and needs no further transaction on its chain.
  lemma SkipsPostFill(r: Run, o: Order, receipts: Receipts, sent: set<Hash>) returns (s: Run)
    requires At(r, o, Some(PostFillReady("o")), receipts, sent)
    requires o.fillTx == Some(1) && o.outputChains == [7] && (7, 1) in receipts
    ensures At(s, o, Some(StartMonitoring("o", 1)), receipts, sent)
  {
    s := Moves(r, o, PostFillReady("o"), NoTransaction, receipts, sent);
  }

  // No pre-claim is needed.
  lemma SkipsPreClaim(r: Run, o: Order, receipts: Receipts, sent: set<Hash>) returns (s: Run)
    requires At(r, o, Some(PreClaimReady("o")), receipts, sent) && o.fillProof.Some?
    ensures At(s, o, Some(ClaimReady("o")), receipts, sent)
  {
    s := Moves(r, o, PreClaimReady("o"), NoTransaction, receipts, sent);
  }

  // Monitoring attests the fill and ends with the yes of can_claim.
  lemma Monitors(r: Run, o: Order, receipts: Receipts, sent: set<Hash>) returns (s: Run)
    requires At(r, o, Some(StartMonitoring("o", 1)), receipts, sent)
    ensures At(s, Transitioned(o.(fillProof := Some(PROOF)), Settled), Some(PreClaimReady("o")), receipts, sent)
  {
    s := Moves(r, o, StartMonitoring("o", 1), Done, receipts, sent);
    s := Moves(s, o, SettlementMonitor(o, 1), Attested(PROOF), receipts, sent);
    s := Moves(s, o.(fillProof := Some(PROOF)), SettlementPolling(o, PROOF), CanClaim(true), receipts, sent);
  }

  // The process restarts: whatever its status, the order is loaded and reconciled. can_claim says no.
  lemma Restarts(r: Run, o: Order, next: Option<Cont>, receipts: Receipts, sent: set<Hash>) returns (s: Run)
    requires At(r, o, next, receipts, sent)
    requires var (p, c) := RecoverOrder(o, receipts, false); p.id == "o" && (c.Some? ==> c.value.Key() == "o")
    ensures var (p, c) := RecoverOrder(o, receipts, false); At(s, p, c, receipts, sent)
    ensures RecoversLast(s, o, receipts)
  {
    s := Reloads(r, o, next, receipts, sent);
    var w := Last(s);
    assert w.recovering[0] == "o";
    RecoverNextIsLocal(w, w.(recovering := []), receipts, false);
    s := Extend(s, Reconcile(receipts, false));
  }

  // The last step of the run recovers the order from this record.
  ghost predicate RecoversLast(r: Run, o: Order, receipts: Receipts) {
    && IsRun(r) && r.labels != [] && r.labels[|r.labels| - 1] == Reconcile(receipts, false)
    && r.worlds[|r.labels| - 1].orders == map["o" := o]
  }

  lemma Reloads(r: Run, o: Order, next: Option<Cont>, receipts: Receipts, sent: set<Hash>) returns (s: Run)
    requires At(r, o, next, receipts, sent)
    ensures LoadsAsWritten(s) && s.worlds != [] && Last(s) == Restart(Last(r), ["o"], {})
  {
    IndexValueNeverExcluded(o.status);
    var loaded := ["o"];
    s := Extend(r, Crash(loaded, {}));
  }

  lemma FillIsSent() returns (r: Run)
    ensures At(r, FILLING, Some(TxPending("o", 1, Fill, 7)), map[], {1})
  {
    r := OrderIsExecuting();
    r := Moves(r, EXECUTING, Cont.Executing(ACCEPTED, PARAMS), Sent(1, 7), map[], {});
  }

  // ----- a fill is sent twice -----

  // The process dies between the delivery of the fill and the write of its hash. Recovery finds no trace of
  // it and starts the stage again, so the exception in OneTransactionPerStage cannot be dropped.
  lemma LostFillIsRepeated() returns (r: Run, i: nat)
    ensures LoadsAsWritten(r) && |r.labels| == i + 3
    ensures DeliversAt(r, i, "o", Fill) && DeliversAt(r, i + 2, "o", Fill)
  {
    var before := OrderIsExecuting();
    i := |before.labels|;
    var lost := LosesFill(before);
    var c := Cont.Executing(EXECUTING, PARAMS);
    HandlerIsLocal(Last(lost), c, Sent(2, 7));
    r := Extend(lost, React(c, Sent(2, 7)));
    assert r.worlds[i + 1] == lost.worlds[i + 1] && r.worlds[i] == lost.worlds[i];
    assert r.worlds[i + 2] == Last(lost) && 2 !in Last(lost).past.sent && 2 in r.worlds[i + 3].past.sent;
  }

  lemma OrderIsExecuting() returns (r: Run)
    ensures At(r, EXECUTING, Some(Cont.Executing(ACCEPTED, PARAMS)), map[], {})
  {
    r := Run([EMPTY_WORLD], []);
    r := Extend(r, Discover(Intent("o", "eip7683", [3], [7]), Execute(PARAMS)));
    r := Moves(r, ACCEPTED, Preparing(ACCEPTED, PARAMS), NoTransaction, map[], {});
  }

  lemma LosesFill(r: Run) returns (s: Run)
    requires At(r, EXECUTING, Some(Cont.Executing(ACCEPTED, PARAMS)), map[], {})
    ensures At(s, EXECUTING, Some(Cont.Executing(EXECUTING, PARAMS)), map[], {1})
    ensures |s.labels| == |r.labels| + 2 && DeliversAt(s, |r.labels|, "o", Fill)
  {
    var torn := DiesInFill(r);
    var w := Last(torn);
    assert w.recovering[0] == "o";
    RecoverNextIsLocal(w, w.(recovering := []), map[], false);
    s := Extend(torn, Reconcile(map[], false));
    assert s.worlds[|r.labels|] == Last(r) && 1 !in Last(r).past.sent;
    assert s.worlds[|r.labels| + 1] == w && 1 in w.past.sent;
  }

  lemma DiesInFill(r: Run) returns (s: Run)
    requires At(r, EXECUTING, Some(Cont.Executing(ACCEPTED, PARAMS)), map[], {})
    ensures LoadsAsWritten(s) && |s.labels| == |r.labels| + 1 && s.worlds[|r.labels|] == Last(r)
    ensures
      var w := Last(s);
      && w.orders == map["o" := EXECUTING] && w.bus == multiset{} && w.recovering == ["o"]
      && w.past.receipts == map[] && w.past.sent == map[1 := ("o", Fill)] && 1 in w.txIndex && w.txIndex[1] == "o"
  {
    IndexValueNeverExcluded(EXECUTING.status);
    var w, c := Last(r), Cont.Executing(ACCEPTED, PARAMS);
    HandlerIsLocal(w, c, Sent(1, 7));
    s := Extend(r, Tear(c, Sent(1, 7), false, true, ["o"], {}));
  }

  // ----- a failed order is finalized -----

  const BROKEN := FILLING.(status := Failed(Fill))
  const PROVEN := BROKEN.(fillProof := Some(PROOF))
  const CLAIMING := PROVEN.(claimTx := Some(2))

  // The fill is still pending when the process restarts, so recovery fails the order. The chain then
  // confirms the fill, and the next recovery resumes the failed order.
  lemma FailedOrderResumes() returns (r: Run)
    ensures At(r, BROKEN, Some(PostFillReady("o")), map[(7, 1) := true], {1})
  {
    r := FillIsSent();
    r := Restarts(r, FILLING, Some(TxPending("o", 1, Fill, 7)), map[], {1});
    r := Mines(r, BROKEN, None, map[], {1}, 7, 1);
    r := Restarts(r, BROKEN, None, map[(7, 1) := true], {1});
  }

  lemma FailedOrderBecomesClaimable() returns (r: Run)
    ensures At(r, PROVEN, Some(ClaimReady("o")), map[(7, 1) := true], {1})
  {
    var receipts: Receipts := map[(7, 1) := true];
    r := FailedOrderResumes();
    r := SkipsPostFill(r, BROKEN, receipts, {1});
    r := Monitors(r, BROKEN, receipts, {1});
    r := SkipsPreClaim(r, PROVEN, receipts, {1});
  }

  lemma FailedOrderIsClaimed() returns (r: Run)
    ensures At(r, CLAIMING, Some(TxConfirmed("o", 2, Claim, true)), map[(7, 1) := true, (3, 2) := true], {1, 2})
  {
    var receipts: Receipts := map[(7, 1) := true];
    r := FailedOrderBecomesClaimable();
    r := Moves(r, PROVEN, ClaimReady("o"), Sent(2, 3), receipts, {1});
    r := Confirms(r, CLAIMING, Claim, 2, 3, receipts, {1, 2});
  }

  // A terminal status is overwritten: in this run of the code as written, a failed order is claimed and
  // finalized. Late claims do occur, so the exception in EveryStatusWriteIsAnEdgeIff cannot be dropped.
  lemma FailedOrderIsFinalized() returns (r: Run, i: nat)
    ensures LoadsAsWritten(r) && i + 1 < |r.worlds|
    ensures "o" in r.worlds[i].orders && r.worlds[i].orders["o"].status == Failed(Fill)
    ensures "o" in r.worlds[i + 1].orders && r.worlds[i + 1].orders["o"].status == Finalized
    ensures ClaimsFailed(r.worlds[i], r.labels[i], "o")
  {
    var before := FailedOrderIsClaimed();
    i := |before.worlds| - 1;
    r := Extend(before, React(TxConfirmed("o", 2, Claim, true), Done));
  }

  // ----- a succeeded claim stays failed -----

  const FILLED := FILLING.(status := Executed)
  const SETTLED := FILLED.(fillProof := Some(PROOF), status := Settled)
  const CLAIMED := SETTLED.(claimTx := Some(2))
  const LATE := CLAIMED.(status := Failed(Claim))

  lemma FillIsConfirmed(r: Run, receipts: Receipts) returns (s: Run)
    requires At(r, FILLING, Some(TxConfirmed("o", 1, Fill, true)), receipts, {1})
    ensures At(s, FILLED, Some(PostFillReady("o")), receipts, {1})
  {
    s := Moves(r, FILLING, TxConfirmed("o", 1, Fill, true), Done, receipts, {1});
  }

  lemma OrderIsFilled() returns (r: Run)
    ensures At(r, FILLED, Some(PostFillReady("o")), map[(7, 1) := true], {1})
  {
    r := FillIsSent();
    r := Confirms(r, FILLING, Fill, 1, 7, map[], {1});
    r := FillIsConfirmed(r, map[(7, 1) := true]);
  }

  // The usual way of an order to Settled.
  lemma OrderSettles() returns (r: Run)
    ensures At(r, SETTLED, Some(PreClaimReady("o")), map[(7, 1) := true], {1})
  {
    var receipts: Receipts := map[(7, 1) := true];
    r := OrderIsFilled();
    r := SkipsPostFill(r, FILLED, receipts, {1});
    r := Monitors(r, FILLED, receipts, {1});
  }

  lemma ClaimIsSent() returns (r: Run)
    ensures At(r, CLAIMED, Some(TxPending("o", 2, Claim, 3)), map[(7, 1) := true], {1, 2})
  {
    var receipts: Receipts := map[(7, 1) := true];
    r := OrderSettles();
    r := SkipsPreClaim(r, SETTLED, receipts, {1});
    r := Moves(r, SETTLED, ClaimReady("o"), Sent(2, 3), receipts, {1});
  }

  lemma PendingClaimFails() returns (r: Run)
    ensures At(r, LATE, None, map[(7, 1) := true, (3, 2) := true], {1, 2})
  {
    var receipts: Receipts := map[(7, 1) := true];
    r := ClaimIsSent();
    r := Restarts(r, CLAIMED, Some(TxPending("o", 2, Claim, 3)), receipts, {1, 2});
    r := Mines(r, LATE, None, receipts, {1, 2}, 3, 2);
  }

  lemma LateStaysFailed(receipts: Receipts)
    requires Confirmed(receipts, 2, 3)
    ensures RecoverOrder(LATE, receipts, false) == (LATE, None)
  {
    TerminalIsNotWritten(LATE, receipts, false);
  }

  // The claim is pending when the process restarts, so recovery fails the order. The claim then succeeds,
  // and the next recovery reads that success and leaves the order failed.
  lemma SucceededClaimStaysFailed() returns (r: Run)
    ensures At(r, LATE, None, map[(7, 1) := true, (3, 2) := true], {1, 2})
    ensures RecoversLast(r, LATE, map[(7, 1) := true, (3, 2) := true])
    ensures LATE.status == Failed(Claim)
    ensures Confirmed(map[(7, 1) := true, (3, 2) := true], LATE.claimTx.value, LATE.inputChains[0])
  {
    var receipts: Receipts := map[(7, 1) := true, (3, 2) := true];
    r := PendingClaimFails();
    LateStaysFailed(receipts);
    r := Restarts(r, LATE, None, receipts, {1, 2});
  }

  // ----- a repeated pre-claim -----

  const PRECLAIMING := SETTLED.(preClaimTx := Some(2))
  const PRECLAIMED := PRECLAIMING.(status := PreClaimed)
  const STALLED := PRECLAIMED.(preClaimTx := Some(3))

  lemma SendsPreClaim(r: Run, o: Order, h: Hash, receipts: Receipts, sent: set<Hash>) returns (s: Run)
    requires At(r, o, Some(PreClaimReady("o")), receipts, sent) && o.fillProof.Some? && h !in sent
    ensures At(s, o.(preClaimTx := Some(h)), Some(TxPending("o", h, PreClaim, 3)), receipts, sent + {h})
  {
    s := Moves(r, o, PreClaimReady("o"), Sent(h, 3), receipts, sent);
  }

  lemma PreClaimIsConfirmed(r: Run, o: Order, h: Hash, receipts: Receipts, sent: set<Hash>) returns (s: Run)
    requires At(r, o, Some(TxConfirmed("o", h, PreClaim, true)), receipts, sent) && h in sent
    ensures
      At(s, Transitioned(o, PreClaimed), if o.status.Settled? then Some(ClaimReady("o")) else None, receipts, sent)
  {
    s := Moves(r, o, TxConfirmed("o", h, PreClaim, true), Done, receipts, sent);
  }

  lemma OrderIsPreClaimed() returns (r: Run)
    ensures At(r, PRECLAIMED, Some(ClaimReady("o")), map[(7, 1) := true, (3, 2) := true], {1, 2})
  {
    r := PreClaimSucceeds();
    r := PreClaimIsConfirmed(r, PRECLAIMING, 2, map[(7, 1) := true, (3, 2) := true], {1, 2});
  }

  lemma PreClaimSucceeds() returns (r: Run)
    ensures At(r, PRECLAIMING, Some(TxConfirmed("o", 2, PreClaim, true)), map[(7, 1) := true, (3, 2) := true], {1, 2})
  {
    var receipts: Receipts := map[(7, 1) := true];
    r := OrderSettles();
    r := SendsPreClaim(r, SETTLED, 2, receipts, {1});
    r := Confirms(r, PRECLAIMING, PreClaim, 2, 3, receipts, {1, 2});
  }

  lemma MonitoringRestarts() returns (r: Run)
    ensures At(r, PRECLAIMED, Some(StartMonitoring("o", 1)), map[(7, 1) := true, (3, 2) := true], {1, 2})
  {
    var receipts: Receipts := map[(7, 1) := true, (3, 2) := true];
    r := OrderIsPreClaimed();
    PreClaimedIsMonitored(receipts);
    r := Restarts(r, PRECLAIMED, Some(ClaimReady("o")), receipts, {1, 2});
  }

  lemma PreClaimedIsMonitored(receipts: Receipts)
    requires Confirmed(receipts, 2, 3)
    ensures RecoverOrder(PRECLAIMED, receipts, false) == (PRECLAIMED, Some(StartMonitoring("o", 1)))
  {
  }

  // After the restart can_claim says no, so the order is monitored again.
  lemma PreClaimIsRepeated() returns (r: Run)
    ensures At(r, STALLED, Some(TxPending("o", 3, PreClaim, 3)), map[(7, 1) := true, (3, 2) := true], {1, 2, 3})
  {
    var receipts: Receipts := map[(7, 1) := true, (3, 2) := true];
    r := MonitoringRestarts();
    r := Monitors(r, PRECLAIMED, receipts, {1, 2});
    r := SendsPreClaim(r, PRECLAIMED, 3, receipts, {1, 2});
  }

  // The second pre-claim is confirmed, the status write is refused, and nothing is left in flight.
  lemma RepeatedPreClaimStalls() returns (r: Run)
    ensures At(r, STALLED, None, map[(7, 1) := true, (3, 2) := true, (3, 3) := true], {1, 2, 3})
    ensures STALLED.status.PreClaimed? && STALLED.claimTx.None?
  {
    var receipts: Receipts := map[(7, 1) := true, (3, 2) := true];
    r := PreClaimIsRepeated();
    r := Confirms(r, STALLED, PreClaim, 3, 3, receipts, {1, 2, 3});
    r := PreClaimIsConfirmed(r, STALLED, 3, receipts[(3, 3) := true], {1, 2, 3});
  }

  // A confirmed PreClaim leads on to the claim exactly from Settled. From PreClaimed, where recovery may have
  // made the settlement monitor run again, the confirmation is refused and the order stalls.
  lemma PreClaimConfirmationAdvancesIff(w: World, c: Cont, a: Answer)
    requires HashInvariant(w) && Enabled(w, React(c, a))
    requires c.TxConfirmed? && c.tx.PreClaim? && c.success && !a.ServiceError?
    ensures c.id in w.orders
    ensures ClaimReady(c.id) in Next(w, React(c, a)).bus <==> w.orders[c.id].status.Settled?
    ensures !w.orders[c.id].status.Settled? ==>
      Next(w, React(c, a)).orders == w.orders && forall d :: d in Next(w, React(c, a)).bus ==> d.Key() != c.id
  {
    InvariantDrives(w, c);
    PreClaimAdvances(Taken(w, c), c, a);
    NothingElseFor(w, c);
    AdvancesIff(Taken(w, c), c.id);
  }

  lemma AdvancesIff(w: World, id: OrderId)
    requires id in w.orders && forall d :: d in w.bus ==> d.Key() != id
    ensures var v := Advanced(w, id, PreClaimed, Some(ClaimReady(id)));
      && (ClaimReady(id) in v.bus <==> w.orders[id].status.Settled?)
      && (!w.orders[id].status.Settled? ==> v.orders == w.orders && forall d :: d in v.bus ==> d.Key() != id)
  {
    assert ClaimReady(id).Key() == id;
  }

  lemma PreClaimAdvances(w: World, c: Cont, a: Answer)
    requires c.TxConfirmed? && c.tx.PreClaim? && c.success && !a.ServiceError?
    requires c.id in w.orders && w.orders[c.id].id == c.id && c.hash in w.txIndex && w.txIndex[c.hash] == c.id
    ensures OnConfirmed(w, c.id, c.hash, c.tx, c.success, a) == Advanced(w, c.id, PreClaimed, Some(ClaimReady(c.id)))
  {
  }

  lemma NothingElseFor(w: World, c: Cont)
    requires OneContinuation(w) && Spends(w, c.Key(), Some(c))
    ensures forall d :: d in w.bus - multiset{c} ==> d.Key() != c.Key()
  {
    forall d | d in w.bus - multiset{c}
      ensures d.Key() != c.Key()
    {
      assert d in w.bus && (d == c ==> w.bus[c] > 1);
    }
  }

  // ----- intents -----

  // recover_orphaned_intents: the stored intents without an order, handed back to be processed again.
  function OrphanedIntents(w: World, seen: set<OrderId>): set<OrderId> {
    set id | id in seen && id in w.intents && id !in w.orders
  }

  // An orphaned intent is still stored, so the duplicate check drops it: re-injecting it does nothing.
  lemma ReinjectedOrphansAreDropped(w: World, loaded: seq<OrderId>, seen: set<OrderId>, i: Intent, d: IntentDecision)
    requires i.id in OrphanedIntents(w, seen)
    ensures OnIntent(Restart(w, loaded, seen), i, d) == Restart(w, loaded, seen)
  {
    assert i.id in Restart(w, loaded, seen).intents;
  }

  // One order waits, and one intent has a record but no order.
  ghost predicate Orphaned(w: World) {
    w.orders == map["o" := ACCEPTED] && w.intents == {"o", "p"} && w.recovering == []
  }

  lemma OrphanIsLeft() returns (r: Run)
    ensures LoadsAsWritten(r) && |r.labels| == 2 && Orphaned(Last(r))
  {
    r := Run([EMPTY_WORLD], []);
    r := Extend(r, Discover(Intent("o", "eip7683", [3], [7]), Skip));
    r := Extend(r, Discover(Intent("p", "eip7683", [3], [7]), CostError));
  }

  lemma OrphanIsHandedBack(r: Run) returns (s: Run)
    requires LoadsAsWritten(r) && Orphaned(Last(r))
    ensures LoadsAsWritten(s) && r.worlds <= s.worlds && |s.labels| == |r.labels| + 2
    ensures s.labels[|r.labels|] == Crash(["o"], {"o", "p"})
    ensures Last(s).recovering == [] && "p" in Last(s).intents
  {
    IndexValueNeverExcluded(ACCEPTED.status);
    var loaded := ["o"];
    s := Extend(r, Crash(loaded, {"o", "p"}));
    assert Last(s).recovering[0] == "o";
    s := Extend(s, Reconcile(map[], false));
  }

  // It happens: the cost estimate of an intent fails, so its record stays without an order. The restart hands
  // it back, and when it is discovered again, nothing happens.
  lemma OrphanIsHandedBackAndDropped() returns (r: Run, i: nat)
    ensures LoadsAsWritten(r) && |r.labels| == i + 3
    ensures r.labels[i] == Crash(["o"], {"o", "p"}) && OrphanedIntents(r.worlds[i], {"o", "p"}) == {"p"}
    ensures r.labels[i + 2] == Discover(Intent("p", "eip7683", [3], [7]), Execute(PARAMS))
    ensures r.worlds[i + 3] == r.worlds[i + 2]
  {
    var left := OrphanIsLeft();
    i := |left.labels|;
    var back := OrphanIsHandedBack(left);
    r := Extend(back, Discover(Intent("p", "eip7683", [3], [7]), Execute(PARAMS)));
    assert r.worlds[i] == back.worlds[i] == Last(left);
  }

  // A rediscovered intent leaves a stored order alone if and only if its record is still kept, or no
  // order is stored for it, or it does not get as far as storing one, or the order was still pristine.
  lemma RediscoveryKeepsOrderIff(w: World, i: Intent, d: IntentDecision)
    requires i.id in w.orders
    ensures OnIntent(w, i, d).orders == w.orders <==>
      i.id in w.intents || !Stores(d) || w.orders[i.id] == OrderOf(i)
  {
    if w.orders[i.id] == OrderOf(i) {
      assert w.orders[i.id := OrderOf(i)] == w.orders;
    }
    assert w.orders[i.id := OrderOf(i)][i.id] == OrderOf(i);
  }
}
