/** The transition system: labelled steps of the solver and its environment, and runs of them. */
module Runs {
  import opened OrderTypes
  import opened Protocol
  import opened Recovery

  datatype Label =
    | Discover(intent: Intent, decision: IntentDecision)
    // The engine takes a continuation off the bus and runs its handler to the end.
    | React(cont: Cont, answer: Answer)
    // An event is lost (the bus lagged), or a monitor gave up at its timeout.
    | Drop(cont: Cont)
    // The chain decides a delivered transaction.
    | Mine(chain: ChainId, hash: Hash, success: bool)
    // The process dies and starts again, loading these orders and these intents.
    | Crash(loaded: seq<OrderId>, seen: set<OrderId>)
    // The process dies inside a handler that has delivered a transaction: the answer and what follows the
    // delivery may or may not have been stored, the event that reports it is lost.
    | Tear(cont: Cont, answer: Answer, stored: bool, indexed: bool, loaded: seq<OrderId>, seen: set<OrderId>)
    // The restarted process reconciles the next loaded order with the receipts that it can read.
    | Reconcile(readable: Receipts, canClaim: bool)

  ghost predicate Distinct(ids: seq<OrderId>) {
    forall i, j :: 0 <= i < j < |ids| ==> ids[i] != ids[j]
  }

  // Delivered hashes are fresh; an intent comes again only while its record is kept or no order has
  // its id; recovery runs before any event is handled, and only the chain moves beside it.
  ghost predicate Enabled(w: World, l: Label) {
    match l
    case Discover(i, _) => w.recovering == [] && (i.id in w.intents || i.id !in w.orders)
    case React(c, a) => w.recovering == [] && c in w.bus && (a.Sent? ==> a.hash !in w.past.sent)
    case Drop(c) => w.recovering == [] && c in w.bus
    case Mine(chain, h, _) => h in w.past.sent && (chain, h) !in w.past.receipts
    case Crash(loaded, seen) =>
      Distinct(loaded) && seen <= w.intents && forall id :: id in loaded ==> id in w.orders
    case Tear(c, a, _, _, loaded, seen) =>
      && w.recovering == [] && c in w.bus && Sends(c) && a.Sent? && a.hash !in w.past.sent
      && Distinct(loaded) && seen <= w.intents && forall id :: id in loaded ==> id in w.orders
    case Reconcile(readable, _) => w.recovering != [] && Readable(readable, w.past.receipts)
  }

  function Next(w: World, l: Label): World
    requires l.Reconcile? ==> w.recovering != []
  {
    match l
    case Discover(i, d) => OnIntent(w, i, d)
    case React(c, a) => Handle(w.(bus := w.bus - multiset{c}), c, a)
    case Drop(c) => w.(bus := w.bus - multiset{c})
    case Mine(chain, h, success) => w.(past := w.past.(receipts := w.past.receipts[(chain, h) := success]))
    case Crash(loaded, seen) => Restart(w, loaded, seen)
    case Tear(c, a, stored, indexed, loaded, seen) => Restart(Torn(w, c, a, stored, indexed), loaded, seen)
    case Reconcile(readable, canClaim) => RecoverNext(w, readable, canClaim)
  }

  // The stages whose handler delivers a transaction.
  predicate Sends(c: Cont) {
    c.Preparing? || c.Executing? || c.PostFillReady? || c.PreClaimReady? || c.ClaimReady?
  }

  // What the chain has seen of a handler that did not end, and what the solver has stored of it.
  function Torn(w: World, c: Cont, a: Answer, stored: bool, indexed: bool): World {
    var v := Handle(w.(bus := w.bus - multiset{c}), c, a);
    w.(past := v.past, orders := if stored then v.orders else w.orders,
       txIndex := if indexed then v.txIndex else w.txIndex)
  }

  // A run: worlds[i] steps to worlds[i + 1] by labels[i].
  datatype Run = Run(worlds: seq<World>, labels: seq<Label>)

  ghost predicate IsRun(r: Run) {
    && |r.worlds| == |r.labels| + 1
    && r.worlds[0] == EMPTY_WORLD
    && forall i :: 0 <= i < |r.labels| ==> StepAt(r, i)
  }

  ghost predicate StepAt(r: Run, i: nat)
    requires |r.worlds| == |r.labels| + 1 && i < |r.labels|
  {
    Enabled(r.worlds[i], r.labels[i]) && r.worlds[i + 1] == Next(r.worlds[i], r.labels[i])
  }

  // A terminal order comes back to life when recovery finds a successful transaction behind it.
  ghost predicate Resurrects(w: World, l: Label) {
    l.Reconcile? && w.recovering != [] && w.recovering[0] in w.orders &&
    var o := w.orders[w.recovering[0]];
    IsTerminal(o.status) && RecoverOrder(o, l.readable, l.canClaim).1.Some?
  }

  ghost predicate NeverResurrects(r: Run) {
    IsRun(r) && forall i :: 0 <= i < |r.labels| ==> LeavesTerminalAlone(r, i)
  }

  ghost predicate LeavesTerminalAlone(r: Run, i: nat)
    requires |r.worlds| == |r.labels| + 1 && i < |r.labels|
  {
    !Resurrects(r.worlds[i], r.labels[i])
  }

  // No restart loads an order that load_active_orders documents as left out: a terminal one.
  ghost predicate LoadsAsDocumented(r: Run) {
    IsRun(r) && forall i :: 0 <= i < |r.labels| && (r.labels[i].Crash? || r.labels[i].Tear?) ==>
      forall id :: id in r.labels[i].loaded ==>
        id in r.worlds[i + 1].orders && LoadedAsDocumented(r.worlds[i + 1].orders[id])
  }
}
