/** Safety over whole runs: any number of orders, handlers, failures, lost events, crashes and recoveries. */
module RunTheorems {
  import opened Wrappers
  import opened OrderTypes
  import opened Protocol
  import opened Recovery
  import opened Runs
  import opened Invariants
  import opened Preservation

  lemma StepKeeps(w: World, l: Label, v: World)
    requires HashInvariant(w) && Enabled(w, l) && v == Next(w, l)
    ensures Kept(w, v)
  {
    match l
    case Discover(i, d) => DiscoverKeeps(w, i, d);
    case React(c, a) => ReactKeeps(w, c, a);
    case Drop(c) => DropKeeps(w, c);
    case Mine(chain, h, success) => MineKeeps(w, chain, h, success);
    case Crash(loaded, seen) => CrashKeeps(w, loaded, seen);
    case Tear(c, a, stored, indexed, loaded, seen) => TearKeeps(w, c, a, stored, indexed, loaded, seen);
    case Reconcile(readable, canClaim) => ReconcileKeeps(w, readable, canClaim);
  }

  lemma {:induction false} HashInvariantHolds(r: Run, i: nat)
    requires IsRun(r) && i < |r.worlds|
    ensures HashInvariant(r.worlds[i])
  {
    if i == 0 {
      StartOfRun(r);
    } else {
      HashInvariantHolds(r, i - 1);
      HashStepOfRun(r, i);
    }
  }

  lemma StartOfRun(r: Run)
    requires IsRun(r)
    ensures HashInvariant(r.worlds[0]) && StatusInvariant(r.worlds[0]) && NoneResumed(r.worlds[0])
  {
  }

  // World i of a run comes from the one before it.
  lemma StepOfRun(r: Run, i: nat)
    requires IsRun(r) && 0 < i < |r.worlds|
    ensures Enabled(r.worlds[i - 1], r.labels[i - 1]) && r.worlds[i] == Next(r.worlds[i - 1], r.labels[i - 1])
  {
    assert StepAt(r, i - 1);
  }

  lemma HashStepOfRun(r: Run, i: nat)
    requires IsRun(r) && 0 < i < |r.worlds| && HashInvariant(r.worlds[i - 1])
    ensures HashInvariant(r.worlds[i])
  {
    StepOfRun(r, i);
    StepKeeps(r.worlds[i - 1], r.labels[i - 1], r.worlds[i]);
  }

  lemma StatusStepOfRun(r: Run, i: nat)
    requires IsRun(r) && 0 < i < |r.worlds|
    requires HashInvariant(r.worlds[i - 1]) && StatusInvariant(r.worlds[i - 1])
    ensures StatusInvariant(r.worlds[i])
  {
    StepOfRun(r, i);
    StepKeeps(r.worlds[i - 1], r.labels[i - 1], r.worlds[i]);
  }

  // In every run, whatever recovery loads.
  lemma {:induction false} StatusInvariantHolds(r: Run, i: nat)
    requires IsRun(r) && i < |r.worlds|
    ensures StatusInvariant(r.worlds[i])
  {
    if i == 0 {
      StartOfRun(r);
    } else {
      StatusInvariantHolds(r, i - 1);
      HashInvariantHolds(r, i - 1);
      StatusStepOfRun(r, i);
    }
  }

  // ----- statuses in every run -----

  // A claim of the order is confirmed although the order has failed: recovery had resumed it.
  ghost predicate ClaimsFailed(w: World, l: Label, id: OrderId) {
    && l.React? && l.cont.TxConfirmed? && l.cont.tx.Claim? && l.cont.success && l.cont.id == id
    && id in w.orders && w.orders[id].status.Failed?
  }

  // Every status write in any run, guarded by the table or not, is an edge of the table, unless it confirms
  // a claim of a failed order; that write always leaves the table.
  lemma EveryStatusWriteIsAnEdgeIff(r: Run, i: nat, id: OrderId)
    requires IsRun(r) && i < |r.labels| && id in r.worlds[i].orders
    ensures id in r.worlds[i + 1].orders
    ensures var s, t := r.worlds[i].orders[id].status, r.worlds[i + 1].orders[id].status;
      && (StatusMove(s, t) <==> !ClaimsFailed(r.worlds[i], r.labels[i], id))
      && (ClaimsFailed(r.worlds[i], r.labels[i], id) ==> LateClaim(s, t))
  {
    StatusInvariantHolds(r, i);
    HashInvariantHolds(r, i);
    assert StepAt(r, i);
    match r.labels[i]
    case React(c, a) => HandlerStatus(r.worlds[i], c, a, id);
    case Tear(c, a, stored, indexed, _, _) => TornStatus(r.worlds[i], c, a, stored, indexed, id);
    case Reconcile(readable, canClaim) => ReconcileFollowsTable(r.worlds[i], readable, canClaim);
    case _ => OthersWriteNoStatus(r.worlds[i], r.labels[i], id);
  }

  lemma OthersWriteNoStatus(w: World, l: Label, id: OrderId)
    requires Enabled(w, l) && !l.React? && !l.Tear? && !l.Reconcile? && id in w.orders
    ensures id in Next(w, l).orders && Next(w, l).orders[id] == w.orders[id]
  {
  }

  lemma HandlerStatus(w: World, c: Cont, a: Answer, id: OrderId)
    requires HashInvariant(w) && StatusInvariant(w) && Enabled(w, React(c, a)) && id in w.orders
    ensures id in Next(w, React(c, a)).orders
    ensures var s, t := w.orders[id].status, Next(w, React(c, a)).orders[id].status;
      && (StatusMove(s, t) <==> !ClaimsFailed(w, React(c, a), id))
      && (ClaimsFailed(w, React(c, a), id) ==> LateClaim(s, t))
  {
    HandlerOrders(w, c, a);
    if id == c.Key() {
      EffectStatusIff(w.past, w.orders[id], c, a);
    }
  }

  // A handler that delivers writes along the table, as far as it gets.
  lemma TornStatus(w: World, c: Cont, a: Answer, stored: bool, indexed: bool, id: OrderId)
    requires HashInvariant(w) && StatusInvariant(w) && c in w.bus && Sends(c) && a.Sent? && a.hash !in w.past.sent
    requires id in w.orders
    ensures id in Torn(w, c, a, stored, indexed).orders
    ensures StatusMove(w.orders[id].status, Torn(w, c, a, stored, indexed).orders[id].status)
  {
    InvariantDrives(w, c);
    TornIs(w, c, a, stored, indexed);
    DeliveringIsNotLate(w.past, w.orders[c.Key()], c, a);
  }

  lemma DeliveringIsNotLate(past: History, o: Order, c: Cont, a: Answer)
    requires Driven(past, o, c, a) && StatusInv(past, o) && MayLive(c, o.status) && Sends(c)
    ensures StatusMove(o.status, EffectOf(o, c, a, past.receipts).order.status)
  {
    EffectStatusIff(past, o, c, a);
  }

  lemma HandlerOrders(w: World, c: Cont, a: Answer)
    requires HashInvariant(w) && Enabled(w, React(c, a))
    ensures c.Key() in w.orders && Driven(w.past, w.orders[c.Key()], c, a)
    ensures Next(w, React(c, a)).orders ==
      w.orders[c.Key() := EffectOf(w.orders[c.Key()], c, a, w.past.receipts).order]
  {
    InvariantDrives(w, c);
    HandlerIsLocal(w, c, a);
  }

  lemma EffectStatusIff(past: History, o: Order, c: Cont, a: Answer)
    requires Driven(past, o, c, a) && StatusInv(past, o) && MayLive(c, o.status)
    ensures var s, t := o.status, EffectOf(o, c, a, past.receipts).order.status;
      var late := c.TxConfirmed? && c.tx.Claim? && c.success && s.Failed?;
      (StatusMove(s, t) <==> !late) && (late ==> LateClaim(s, t))
  {
    EffectIsEdgeIff(o, c, a, past.receipts);
  }

  // The rank only rises; Finalized is final, and Failed is left only for Finalized.
  lemma {:induction false} StatusRises(r: Run, i: nat, j: nat, id: OrderId)
    requires IsRun(r) && i <= j < |r.worlds| && id in r.worlds[i].orders
    ensures id in r.worlds[j].orders
    ensures var s, t := r.worlds[i].orders[id].status, r.worlds[j].orders[id].status;
      && (s == t || Rank(s) < Rank(t) || LateClaim(s, t))
      && (s.Finalized? ==> t == s)
      && (s.Failed? ==> t == s || t.Finalized?)
  {
    if i < j {
      StatusRises(r, i, j - 1, id);
      EveryStatusWriteIsAnEdgeIff(r, j - 1, id);
    }
  }

  // How often the status of an order changed in the first n steps.
  ghost function Changes(r: Run, id: OrderId, n: nat): nat
    requires IsRun(r) && n < |r.worlds|
  {
    if n == 0 then 0
    else
      Changes(r, id, n - 1) +
      if id in r.worlds[n - 1].orders && id in r.worlds[n].orders
         && r.worlds[n - 1].orders[id].status != r.worlds[n].orders[id].status then 1 else 0
  }

  // How often a claim of the order was confirmed in them after it had failed.
  ghost function LateClaims(r: Run, id: OrderId, n: nat): nat
    requires IsRun(r) && n < |r.worlds|
  {
    if n == 0 then 0
    else LateClaims(r, id, n - 1) + if ClaimsFailed(r.worlds[n - 1], r.labels[n - 1], id) then 1 else 0
  }

  lemma {:induction false} ChangesBoundedByRank(r: Run, id: OrderId, n: nat)
    requires IsRun(r) && n < |r.worlds|
    ensures Changes(r, id, n) <=
      LateClaims(r, id, n) + if id in r.worlds[n].orders then Rank(r.worlds[n].orders[id].status) else 0
    ensures LateClaims(r, id, n) <= 1
    ensures LateClaims(r, id, n) == 1 ==> id in r.worlds[n].orders && r.worlds[n].orders[id].status.Finalized?
  {
    if n > 0 {
      ChangesBoundedByRank(r, id, n - 1);
      if id in r.worlds[n - 1].orders {
        EveryStatusWriteIsAnEdgeIff(r, n - 1, id);
      }
    }
  }

  // Seven changes, and an eighth only for the late claim of a failed order.
  lemma AtMostSevenChanges(r: Run, id: OrderId)
    requires IsRun(r)
    ensures Changes(r, id, |r.labels|) <= 7 + LateClaims(r, id, |r.labels|)
    ensures LateClaims(r, id, |r.labels|) <= 1
  {
    ChangesBoundedByRank(r, id, |r.labels|);
  }

  // ----- with the documented load -----

  ghost predicate OnlyActive(w: World, ids: seq<OrderId>) {
    forall id :: id in ids ==> id in w.orders && !IsTerminal(w.orders[id].status)
  }

  // Handlers run only when recovery is over, and reconciling one order leaves the others alone.
  lemma ListStaysActive(w: World, l: Label, v: World)
    requires Distinct(w.recovering) && Enabled(w, l) && v == Next(w, l) && OnlyActive(w, w.recovering)
    requires l.Crash? || l.Tear? ==> OnlyActive(v, l.loaded)
    ensures OnlyActive(v, v.recovering)
  {
    match l
    case React(c, a) => ReactLeavesList(w.(bus := w.bus - multiset{c}), c, a);
    case Reconcile(readable, canClaim) => ReconcileLeavesRest(w, readable, canClaim);
    case Mine(_, _, _) =>
    case _ => OthersLeaveList(w, l);
  }

  lemma OthersLeaveList(w: World, l: Label)
    requires Enabled(w, l) && !l.React? && !l.Reconcile? && !l.Mine?
    ensures Next(w, l).recovering == if l.Crash? || l.Tear? then l.loaded else []
  {
  }

  lemma ReactLeavesList(w: World, c: Cont, a: Answer)
    ensures Handle(w, c, a).recovering == w.recovering
  {
  }

  lemma ReconcileLeavesRest(w: World, readable: Receipts, canClaim: bool)
    requires w.recovering != [] && OnlyActive(w, w.recovering) && Distinct(w.recovering)
    ensures OnlyActive(RecoverNext(w, readable, canClaim), w.recovering[1..])
    ensures RecoverNext(w, readable, canClaim).recovering == w.recovering[1..]
  {
    var u := w.(recovering := w.recovering[1..]);
    assert w.recovering[0] in w.recovering;
    RecoverNextIsLocal(w, u, readable, canClaim);
    RestOfList(w.recovering);
  }

  lemma {:induction false} DocumentedLoadsAreActive(r: Run, i: nat)
    requires LoadsAsDocumented(r) && i < |r.worlds|
    ensures OnlyActive(r.worlds[i], r.worlds[i].recovering)
  {
    if i > 0 {
      DocumentedLoadsAreActive(r, i - 1);
      LoadIsActive(r, i);
      ActiveStepOfRun(r, i);
    }
  }

  lemma ActiveStepOfRun(r: Run, i: nat)
    requires IsRun(r) && 0 < i < |r.worlds|
    requires OnlyActive(r.worlds[i - 1], r.worlds[i - 1].recovering)
    requires r.labels[i - 1].Crash? || r.labels[i - 1].Tear? ==> OnlyActive(r.worlds[i], r.labels[i - 1].loaded)
    ensures OnlyActive(r.worlds[i], r.worlds[i].recovering)
  {
    var w, l, v := r.worlds[i - 1], r.labels[i - 1], r.worlds[i];
    StepOfRun(r, i);
    ListIsDistinct(r, i - 1);
    ListStaysActive(w, l, v);
  }

  lemma ListIsDistinct(r: Run, i: nat)
    requires IsRun(r) && i < |r.worlds|
    ensures Distinct(r.worlds[i].recovering)
  {
    HashInvariantHolds(r, i);
  }

  lemma LoadIsActive(r: Run, i: nat)
    requires LoadsAsDocumented(r) && 0 < i < |r.worlds|
    ensures r.labels[i - 1].Crash? || r.labels[i - 1].Tear? ==> OnlyActive(r.worlds[i], r.labels[i - 1].loaded)
  {
    if r.labels[i - 1].Crash? || r.labels[i - 1].Tear? {
      assert r.worlds[i - 1 + 1] == r.worlds[i];
    }
  }

  lemma DocumentedRunsNeverResurrect(r: Run)
    requires LoadsAsDocumented(r)
    ensures NeverResurrects(r)
  {
    forall i | 0 <= i < |r.labels|
      ensures LeavesTerminalAlone(r, i)
    {
      DocumentedLoadsAreActive(r, i);
      assert StepAt(r, i);
      assert r.labels[i].Reconcile? ==> r.worlds[i].recovering[0] in r.worlds[i].recovering;
    }
  }

  // If recovery never resurrects, no failed order is ever live, so no claim comes late.
  lemma {:induction false} NoneResumedHolds(r: Run, i: nat)
    requires NeverResurrects(r) && i < |r.worlds|
    ensures NoneResumed(r.worlds[i])
  {
    if i == 0 {
      StartOfRun(r);
    } else {
      NoneResumedHolds(r, i - 1);
      NoneResumedStepOfRun(r, i);
    }
  }

  lemma NoneResumedStepOfRun(r: Run, i: nat)
    requires NeverResurrects(r) && 0 < i < |r.worlds| && NoneResumed(r.worlds[i - 1])
    ensures NoneResumed(r.worlds[i])
  {
    HashInvariantHolds(r, i - 1);
    StatusInvariantHolds(r, i - 1);
    NextIsNoneResumed(r, i);
  }

  lemma NextIsNoneResumed(r: Run, i: nat)
    requires NeverResurrects(r) && 0 < i < |r.worlds|
    requires HashInvariant(r.worlds[i - 1]) && StatusInvariant(r.worlds[i - 1]) && NoneResumed(r.worlds[i - 1])
    ensures NoneResumed(r.worlds[i])
  {
    assert LeavesTerminalAlone(r, i - 1);
    StepOfRun(r, i);
    StepKeepsNoneResumed(r.worlds[i - 1], r.labels[i - 1], r.worlds[i]);
  }

  lemma StepKeepsNoneResumed(w: World, l: Label, v: World)
    requires HashInvariant(w) && StatusInvariant(w) && NoneResumed(w)
    requires Enabled(w, l) && !Resurrects(w, l) && v == Next(w, l)
    ensures NoneResumed(v)
  {
    match l
    case React(c, a) => ReactKeepsNoneResumed(w, c, a);
    case Reconcile(readable, canClaim) => ReconcileKeepsNoneResumed(w, readable, canClaim);
    case Discover(i, d) => DiscoverKeepsNoneResumed(w, i, d);
    case _ =>
  }

  // So with the documented load every write is an edge, terminal statuses absorb, and seven changes are all.
  lemma DocumentedWritesAreEdges(r: Run, i: nat, id: OrderId)
    requires LoadsAsDocumented(r) && i < |r.labels| && id in r.worlds[i].orders
    ensures id in r.worlds[i + 1].orders
    ensures StatusMove(r.worlds[i].orders[id].status, r.worlds[i + 1].orders[id].status)
  {
    DocumentedRunsNeverResurrect(r);
    NoLateClaims(r, i, id);
    EveryStatusWriteIsAnEdgeIff(r, i, id);
  }

  lemma NoLateClaims(r: Run, i: nat, id: OrderId)
    requires NeverResurrects(r) && i < |r.labels|
    ensures !ClaimsFailed(r.worlds[i], r.labels[i], id)
  {
    NoneResumedHolds(r, i);
    assert StepAt(r, i);
  }

  lemma {:induction false} DocumentedChanges(r: Run, id: OrderId, n: nat)
    requires LoadsAsDocumented(r) && n < |r.worlds|
    ensures LateClaims(r, id, n) == 0 && Changes(r, id, n) <= 7
  {
    if n > 0 {
      DocumentedChanges(r, id, n - 1);
      DocumentedRunsNeverResurrect(r);
      NoLateClaims(r, n - 1, id);
    }
    ChangesBoundedByRank(r, id, n);
  }

  // ----- continuations and transactions; these hold whatever recovery loads -----

  lemma OneLiveContinuation(r: Run, i: nat, c: Cont, d: Cont)
    requires IsRun(r) && i < |r.worlds|
    requires c in r.worlds[i].bus && d in r.worlds[i].bus && c.Key() == d.Key()
    ensures c == d && r.worlds[i].bus[c] == 1
  {
    HashInvariantHolds(r, i);
  }

  // Step i delivers a transaction of type t for the order.
  ghost predicate DeliversAt(r: Run, i: nat, id: OrderId, t: TxType)
    requires IsRun(r) && i < |r.labels|
  {
    exists h :: h !in r.worlds[i].past.sent && h in r.worlds[i + 1].past.sent && r.worlds[i + 1].past.sent[h] == (id, t)
  }

  // The handler that step l runs delivers transaction h of type t for the order.
  ghost predicate Delivers(w: World, l: Label, id: OrderId, t: TxType, h: Hash) {
    && (l.React? || l.Tear?) && l.cont.Key() == id && id in w.orders
    && EffectOf(w.orders[id], l.cont, l.answer, w.past.receipts).tx == Some((t, h))
  }

  // In step l can_claim is asked for the order and says yes: by its monitor, or by recovery.
  ghost predicate SaysYes(w: World, l: Label, id: OrderId) {
    || (l.React? && l.cont.SettlementPolling? && l.cont.Key() == id && l.answer == CanClaim(true))
    || (l.Reconcile? && l.canClaim && w.recovering != [] && w.recovering[0] == id
        && id in w.orders && AsksFor(w.orders[id], l.readable))
  }

  // The past only grows, by deliveries of the handler that runs and by answers of can_claim.
  ghost predicate Grows(w: World, l: Label, past: History) {
    && (forall h :: h in w.past.sent ==> h in past.sent && past.sent[h] == w.past.sent[h])
    && (forall h :: h in past.sent && h !in w.past.sent ==> Delivers(w, l, past.sent[h].0, past.sent[h].1, h))
    && (forall id :: id in past.claimable && id !in w.past.claimable ==> SaysYes(w, l, id))
  }

  lemma PastGrows(w: World, l: Label)
    requires HashInvariant(w) && Enabled(w, l)
    ensures Grows(w, l, Next(w, l).past)
  {
    match l
    case React(c, a) => ReactGrows(w, c, a);
    case Tear(_, _, _, _, _, _) => TearGrows(w, l);
    case Reconcile(readable, canClaim) => ReconcileGrows(w, readable, canClaim);
    case _ => OthersAreQuiet(w, l);
  }

  lemma OthersAreQuiet(w: World, l: Label)
    requires !l.React? && !l.Tear? && !l.Reconcile?
    ensures Next(w, l).past.sent == w.past.sent && Next(w, l).past.claimable == w.past.claimable
  {
  }

  lemma ReactGrows(w: World, c: Cont, a: Answer)
    requires HashInvariant(w) && Enabled(w, React(c, a))
    ensures Grows(w, React(c, a), Next(w, React(c, a)).past)
  {
    InvariantDrives(w, c);
    HandlerIsLocal(w, c, a);
    EffectGrows(w, React(c, a));
  }

  lemma TearGrows(w: World, l: Label)
    requires l.Tear? && HashInvariant(w) && Enabled(w, l)
    ensures Grows(w, l, Next(w, l).past)
  {
    InvariantDrives(w, l.cont);
    TornIs(w, l.cont, l.answer, l.stored, l.indexed);
    EffectGrows(w, l);
  }

  lemma ReconcileGrows(w: World, readable: Receipts, canClaim: bool)
    requires HashInvariant(w) && w.recovering != []
    ensures Grows(w, Reconcile(readable, canClaim), RecoverNext(w, readable, canClaim).past)
  {
    assert w.recovering[0] in w.recovering;
    ReconcilePast(w, readable, canClaim);
  }

  lemma ReconcilePast(w: World, readable: Receipts, canClaim: bool)
    requires w.recovering != [] && w.recovering[0] in w.orders
    ensures
      var id := w.recovering[0];
      var yes := AsksFor(w.orders[id], readable) && canClaim;
      RecoverNext(w, readable, canClaim).past == w.past.(claimable := w.past.claimable + if yes then {id} else {})
  {
  }

  lemma EffectGrows(w: World, l: Label)
    requires l.React? || (l.Tear? && Sends(l.cont))
    requires l.cont.Key() in w.orders && Driven(w.past, w.orders[l.cont.Key()], l.cont, l.answer)
    ensures
      var id := l.cont.Key();
      Grows(w, l, PastAfter(w.past, id, EffectOf(w.orders[id], l.cont, l.answer, w.past.receipts)))
  {
    var c, a := l.cont, l.answer;
    EffectKeepsHashes(w.past, w.orders[c.Key()], c, a);
    OnlyPollingConfirms(w.orders[c.Key()], c, a, w.past.receipts);
  }

  lemma OnlyPollingConfirms(o: Order, c: Cont, a: Answer, receipts: Receipts)
    ensures EffectOf(o, c, a, receipts).confirmed ==> c.SettlementPolling? && a == CanClaim(true)
  {
  }

  lemma RunGrows(r: Run, i: nat)
    requires IsRun(r) && i < |r.labels|
    ensures Grows(r.worlds[i], r.labels[i], r.worlds[i + 1].past)
  {
    HashInvariantHolds(r, i);
    assert StepAt(r, i);
    PastGrows(r.worlds[i], r.labels[i]);
  }

  // The process died between the delivery and the write of its hash.
  predicate LosesHash(l: Label) {
    l.Tear? && !l.stored
  }

  // At most one Fill, one PostFill and one Claim per order, across crashes and recoveries, except that a stage
  // may be delivered again after a crash that lost the hash of the earlier transaction; and one Prepare, with
  // no exception.
  lemma OneTransactionPerStage(r: Run, i: nat, j: nat, id: OrderId, t: TxType)
    requires IsRun(r) && i < j < |r.labels| && !t.PreClaim?
    requires DeliversAt(r, i, id, t) && DeliversAt(r, j, id, t)
    ensures LosesHash(r.labels[i]) && !t.Prepare?
  {
    if t.Prepare? {
      OnePrepare(r, i, j, id);
    }
    if !LosesHash(r.labels[i]) {
      DeliveryIsStored(r, i, id, t);
      HashesStay(r, i + 1, j, id, t);
      DeliveryIsFirst(r, j, id, t);
    }
  }

  // ----- preparing happens once -----

  // The order is stored and nothing in flight prepares it.
  ghost predicate Prepared(w: World, id: OrderId) {
    id in w.orders && forall c :: c in w.bus && c.Preparing? ==> c.Key() != id
  }

  lemma NeverPreparesAgain(o: Order, c: Cont, a: Answer, receipts: Receipts)
    ensures var next := EffectOf(o, c, a, receipts).next; next.Some? ==> !next.value.Preparing?
  {
  }

  lemma RecoveryNeverPrepares(o: Order, readable: Receipts, canClaim: bool)
    ensures var next := RecoverOrder(o, readable, canClaim).1; next.Some? ==> !next.value.Preparing?
  {
    var r := ReconcileWithBlockchain(o, readable);
    if r.Ok? {
      var p := EnsureCorrectState(o, r.value);
      assert RecoverOrder(o, readable, canClaim) == PublishFor(p, r.value, canClaim);
    }
  }

  lemma ApplyKeepsPrepared(w: World, k: OrderId, spent: Option<Cont>, e: Effect, id: OrderId)
    requires OneContinuation(w) && Spends(w, k, spent) && k !in w.recovering
    requires e.next.Some? ==> e.next.value.Key() == k && !e.next.value.Preparing?
    requires id in w.orders && forall c :: c in w.bus && c.Preparing? && c.Key() == id ==> id == k
    ensures Prepared(Apply(w, k, spent, e), id)
  {
    BusAfter(w, k, spent, e);
  }

  lemma ReactPrepares(w: World, c: Cont, a: Answer, id: OrderId)
    requires HashInvariant(w) && Enabled(w, React(c, a))
    requires Prepared(w, id) || c.Key() == id
    ensures Prepared(Next(w, React(c, a)), id)
  {
    InvariantDrives(w, c);
    HandlerIsLocal(w, c, a);
    EffectKeepsHashes(w.past, w.orders[c.Key()], c, a);
    NeverPreparesAgain(w.orders[c.Key()], c, a, w.past.receipts);
    ApplyKeepsPrepared(w, c.Key(), Some(c), EffectOf(w.orders[c.Key()], c, a, w.past.receipts), id);
  }

  lemma TearPrepares(w: World, l: Label, id: OrderId)
    requires HashInvariant(w) && l.Tear? && Enabled(w, l) && id in w.orders
    ensures Prepared(Next(w, l), id)
  {
    InvariantDrives(w, l.cont);
    TornIs(w, l.cont, l.answer, l.stored, l.indexed);
  }

  lemma ReconcilePrepares(w: World, readable: Receipts, canClaim: bool, id: OrderId)
    requires HashInvariant(w) && Enabled(w, Reconcile(readable, canClaim)) && Prepared(w, id)
    ensures Prepared(RecoverNext(w, readable, canClaim), id)
  {
    var head := w.recovering[0];
    var u := w.(recovering := w.recovering[1..]);
    ShorterList(w, u);
    RecoverNextIsLocal(w, u, readable, canClaim);
    RecoveryKeepsHashes(w.past, head, w.orders[head], readable, canClaim);
    RecoveryNeverPrepares(w.orders[head], readable, canClaim);
    ApplyKeepsPrepared(u, head, None, RecoveryEffect(w.orders[head], readable, canClaim), id);
  }

  lemma StepKeepsPrepared(w: World, l: Label, v: World, id: OrderId)
    requires HashInvariant(w) && Enabled(w, l) && v == Next(w, l) && Prepared(w, id)
    ensures Prepared(v, id)
  {
    match l
    case React(c, a) => ReactPrepares(w, c, a, id);
    case Tear(_, _, _, _, _, _) => TearPrepares(w, l, id);
    case Reconcile(readable, canClaim) => ReconcilePrepares(w, readable, canClaim, id);
    case Discover(i, d) => DiscoverPrepares(w, i, d, id);
    case _ =>
  }

  // A stored order is not accepted again.
  lemma DiscoverPrepares(w: World, i: Intent, d: IntentDecision, id: OrderId)
    requires Enabled(w, Discover(i, d)) && Prepared(w, id)
    ensures Prepared(Next(w, Discover(i, d)), id)
  {
  }

  lemma {:induction false} PreparedStays(r: Run, i: nat, j: nat, id: OrderId)
    requires IsRun(r) && i <= j < |r.worlds| && Prepared(r.worlds[i], id)
    ensures Prepared(r.worlds[j], id)
  {
    if i < j {
      PreparedStays(r, i, j - 1, id);
      HashInvariantHolds(r, j - 1);
      PreparedStepOfRun(r, j, id);
    }
  }

  lemma PreparedStepOfRun(r: Run, i: nat, id: OrderId)
    requires IsRun(r) && 0 < i < |r.worlds| && HashInvariant(r.worlds[i - 1]) && Prepared(r.worlds[i - 1], id)
    ensures Prepared(r.worlds[i], id)
  {
    StepOfRun(r, i);
    StepKeepsPrepared(r.worlds[i - 1], r.labels[i - 1], r.worlds[i], id);
  }

  lemma OnlyPreparingPrepares(o: Order, c: Cont, a: Answer, receipts: Receipts)
    requires var e := EffectOf(o, c, a, receipts); e.tx.Some? && e.tx.value.0.Prepare?
    ensures c.Preparing?
  {
  }

  lemma PrepareIsDelivered(r: Run, i: nat, id: OrderId)
    requires IsRun(r) && i < |r.labels| && DeliversAt(r, i, id, Prepare)
    ensures Prepared(r.worlds[i + 1], id) && !Prepared(r.worlds[i], id)
  {
    var w, l := r.worlds[i], r.labels[i];
    DeliveryComesFrom(r, i, id, Prepare);
    assert StepAt(r, i);
    HashInvariantHolds(r, i);
    OnlyPreparingPrepares(w.orders[id], l.cont, l.answer, w.past.receipts);
    if l.React? {
      ReactPrepares(w, l.cont, l.answer, id);
    } else {
      TearPrepares(w, l, id);
    }
  }

  lemma OnePrepare(r: Run, i: nat, j: nat, id: OrderId)
    requires IsRun(r) && i < |r.labels| && j < |r.labels|
    requires DeliversAt(r, i, id, Prepare) && DeliversAt(r, j, id, Prepare)
    ensures i == j
  {
    PrepareIsDelivered(r, i, id);
    PrepareIsDelivered(r, j, id);
    if i < j {
      PreparedStays(r, i + 1, j, id);
    } else if j < i {
      PreparedStays(r, j + 1, i, id);
    }
  }

  // ----- the other stages -----

  lemma DeliveryIsStored(r: Run, i: nat, id: OrderId, t: TxType)
    requires IsRun(r) && i < |r.labels| && DeliversAt(r, i, id, t) && !LosesHash(r.labels[i])
    ensures id in r.worlds[i + 1].orders && TxOf(r.worlds[i + 1].orders[id], t).Some?
  {
    var w, l := r.worlds[i], r.labels[i];
    DeliveryComesFrom(r, i, id, t);
    assert StepAt(r, i);
    HashInvariantHolds(r, i);
    StepOrders(w, l);
    EffectStores(w.orders[id], l.cont, l.answer, w.past.receipts, t);
  }

  lemma EffectStores(o: Order, c: Cont, a: Answer, receipts: Receipts, t: TxType)
    requires var e := EffectOf(o, c, a, receipts); e.tx.Some? && e.tx.value.0 == t
    ensures TxOf(EffectOf(o, c, a, receipts).order, t).Some?
  {
  }

  lemma DeliveryIsFirst(r: Run, i: nat, id: OrderId, t: TxType)
    requires IsRun(r) && i < |r.labels| && DeliversAt(r, i, id, t) && !t.PreClaim?
    ensures id in r.worlds[i].orders && TxOf(r.worlds[i].orders[id], t).None?
  {
    var w, l := r.worlds[i], r.labels[i];
    DeliveryComesFrom(r, i, id, t);
    assert StepAt(r, i);
    HashInvariantHolds(r, i);
    InvariantDrives(w, l.cont);
    StageIsEmpty(w.past, w.orders[id], l.cont, l.answer, t);
  }

  lemma StageIsEmpty(past: History, o: Order, c: Cont, a: Answer, t: TxType)
    requires Driven(past, o, c, Done) && !t.PreClaim?
    requires var e := EffectOf(o, c, a, past.receipts); e.tx.Some? && e.tx.value.0 == t
    ensures TxOf(o, t).None?
  {
  }

  lemma DeliveryComesFrom(r: Run, i: nat, id: OrderId, t: TxType)
    requires IsRun(r) && i < |r.labels| && DeliversAt(r, i, id, t)
    ensures exists h :: Delivers(r.worlds[i], r.labels[i], id, t, h)
  {
    var h :| h !in r.worlds[i].past.sent && h in r.worlds[i + 1].past.sent && r.worlds[i + 1].past.sent[h] == (id, t);
    RunGrows(r, i);
    assert Delivers(r.worlds[i], r.labels[i], id, t, h);
  }

  // Which records a handler leaves behind, whole or torn.
  lemma StepOrders(w: World, l: Label)
    requires HashInvariant(w) && Enabled(w, l) && (l.React? || l.Tear?)
    ensures l.cont.Key() in w.orders && Driven(w.past, w.orders[l.cont.Key()], l.cont, l.answer)
    ensures
      var id := l.cont.Key();
      var after := w.orders[id := EffectOf(w.orders[id], l.cont, l.answer, w.past.receipts).order];
      Next(w, l).orders == if LosesHash(l) then w.orders else after
  {
    InvariantDrives(w, l.cont);
    if l.React? {
      HandlerIsLocal(w, l.cont, l.answer);
    } else {
      TornIs(w, l.cont, l.answer, l.stored, l.indexed);
    }
  }

  // A stored hash stays; only a PreClaim may be replaced.
  lemma {:induction false} HashesStay(r: Run, i: nat, j: nat, id: OrderId, t: TxType)
    requires IsRun(r) && i <= j < |r.worlds| && !t.PreClaim?
    requires id in r.worlds[i].orders && TxOf(r.worlds[i].orders[id], t).Some?
    ensures id in r.worlds[j].orders && TxOf(r.worlds[j].orders[id], t) == TxOf(r.worlds[i].orders[id], t)
  {
    if i < j {
      HashesStay(r, i, j - 1, id, t);
      HashInvariantHolds(r, j - 1);
      StepOfRunKeepsOrder(r, j, id);
    }
  }

  lemma StepOfRunKeepsOrder(r: Run, i: nat, id: OrderId)
    requires IsRun(r) && 0 < i < |r.worlds| && HashInvariant(r.worlds[i - 1]) && id in r.worlds[i - 1].orders
    ensures id in r.worlds[i].orders && KeepsHashes(r.worlds[i - 1].orders[id], r.worlds[i].orders[id])
  {
    StepOfRun(r, i);
    StepKeepsOrder(r.worlds[i - 1], r.labels[i - 1], r.worlds[i], id);
  }

  lemma StepKeepsOrder(w: World, l: Label, v: World, id: OrderId)
    requires HashInvariant(w) && Enabled(w, l) && v == Next(w, l) && id in w.orders
    ensures id in v.orders && KeepsHashes(w.orders[id], v.orders[id])
  {
    match l
    case React(c, a) => HandlerKeepsOrder(w, l, id);
    case Tear(_, _, _, _, _, _) => HandlerKeepsOrder(w, l, id);
    case Reconcile(readable, canClaim) => ReconcileKeepsOrder(w, readable, canClaim, id);
    case _ => OthersWriteNoStatus(w, l, id);
  }

  lemma HandlerKeepsOrder(w: World, l: Label, id: OrderId)
    requires HashInvariant(w) && Enabled(w, l) && (l.React? || l.Tear?) && id in w.orders
    ensures id in Next(w, l).orders && KeepsHashes(w.orders[id], Next(w, l).orders[id])
  {
    StepOrders(w, l);
    EffectKeepsHashes(w.past, w.orders[l.cont.Key()], l.cont, l.answer);
  }

  lemma ReconcileKeepsOrder(w: World, readable: Receipts, canClaim: bool, id: OrderId)
    requires HashInvariant(w) && Enabled(w, Reconcile(readable, canClaim)) && id in w.orders
    ensures var v := RecoverNext(w, readable, canClaim); id in v.orders && KeepsHashes(w.orders[id], v.orders[id])
  {
    assert w.recovering[0] in w.recovering;
    TurnKeepsOrder(w, readable, canClaim, id);
  }

  lemma TurnKeepsOrder(w: World, readable: Receipts, canClaim: bool, id: OrderId)
    requires w.recovering != [] && w.recovering[0] in w.orders && id in w.orders
    ensures var v := RecoverNext(w, readable, canClaim); id in v.orders && KeepsHashes(w.orders[id], v.orders[id])
  {
    RecoveryKeepsRecord(w.orders[w.recovering[0]], readable, canClaim);
  }

  lemma RecoveryKeepsRecord(o: Order, readable: Receipts, canClaim: bool)
    ensures KeepsHashes(o, RecoverOrder(o, readable, canClaim).0)
  {
    var r := ReconcileWithBlockchain(o, readable);
    if r.Ok? {
      OnlyStatusChanges(o, r.value, canClaim);
    }
  }

  lemma {:induction false} ClaimableWasAsked(r: Run, i: nat, id: OrderId)
    requires IsRun(r) && i < |r.worlds| && id in r.worlds[i].past.claimable
    ensures exists j :: 0 <= j < i && SaysYes(r.worlds[j], r.labels[j], id)
  {
    if i > 0 {
      if id in r.worlds[i - 1].past.claimable {
        ClaimableWasAsked(r, i - 1, id);
      } else {
        RunGrows(r, i - 1);
      }
    }
  }

  // When a claim is delivered, the fill has succeeded on chain, its proof is stored, and can_claim has
  // said yes for this order in an earlier step.
  lemma ClaimsAreEarned(r: Run, i: nat, id: OrderId)
    requires IsRun(r) && i < |r.labels| && DeliversAt(r, i, id, Claim)
    ensures id in r.worlds[i].orders
    ensures var o := r.worlds[i].orders[id];
      && o.fillTx.Some? && Succeeded(r.worlds[i].past.receipts, o.fillTx.value)
      && o.fillProof.Some?
    ensures exists j :: 0 <= j < i && SaysYes(r.worlds[j], r.labels[j], id)
  {
    HashInvariantHolds(r, i);
    assert StepAt(r, i);
    var w, l := r.worlds[i], r.labels[i];
    DeliveryComesFrom(r, i, id, Claim);
    InvariantDrives(w, l.cont);
    OnlyClaimReadyClaims(w.orders[id], l.cont, l.answer, w.past.receipts);
    ClaimableWasAsked(r, i, id);
  }

  lemma OnlyClaimReadyClaims(o: Order, c: Cont, a: Answer, receipts: Receipts)
    ensures var tx := EffectOf(o, c, a, receipts).tx; tx.Some? && tx.value.0.Claim? ==> c.ClaimReady?
  {
  }
}
