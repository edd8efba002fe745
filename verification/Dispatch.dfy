/**
 The dispatch loop of the engine. Each handler runs in a task of its own that holds a permit of one of two
 semaphores; while the loop waits for a permit it takes no further event.
 */
module Dispatch {
  import opened OrderTypes
  import opened Protocol

  const CLAIM_BATCH: nat := 1
  const TRANSACTION_PERMITS: nat := 1
  const GENERAL_PERMITS: nat := 100

  // What one task does.
  datatype Work = Discovered(intent: OrderId) | Handling(event: Cont) | Claiming(ids: seq<OrderId>)

  // A semaphore and the tasks it guards, numbered in the order in which the loop dispatched them. A waiting
  // pool has been asked for a permit for the last of them. A task has a permit from being spawned to its end;
  // it runs some time after it was spawned.
  datatype Pool = Pool(permits: nat, waiting: bool, dispatched: seq<Work>, spawned: set<nat>, running: set<nat>,
                       begun: seq<nat>)

  datatype Loop = Loop(transaction: Pool, general: Pool, batch: seq<OrderId>, received: seq<OrderId>)

  datatype Guard = Transaction | General

  function NewPool(permits: nat): Pool {
    Pool(permits, false, [], {}, {}, [])
  }

  const START: Loop := Loop(NewPool(TRANSACTION_PERMITS), NewPool(GENERAL_PERMITS), [], [])

  // ----- a pool -----

  function Dispatched(p: Pool, work: Work): Pool {
    p.(waiting := true, dispatched := p.dispatched + [work])
  }

  predicate CanGrant(p: Pool) {
    p.waiting && p.permits > 0 && p.dispatched != []
  }

  function Granted(p: Pool): Pool
    requires CanGrant(p)
  {
    p.(permits := p.permits - 1, waiting := false, spawned := p.spawned + {|p.dispatched| - 1})
  }

  function Begun(p: Pool, task: nat): Pool {
    p.(spawned := p.spawned - {task}, running := p.running + {task}, begun := p.begun + [task])
  }

  function Ended(p: Pool, task: nat): Pool {
    p.(permits := p.permits + 1, running := p.running - {task})
  }

  // ----- the loop -----

  datatype Step =
    | TakeIntent(intent: OrderId)
    | TakeEvent(event: Cont)
    | Grant(guard: Guard)
    | Begin(guard: Guard, task: nat)
    | End(guard: Guard, task: nat)

  function Capacity(guard: Guard): nat {
    if guard.Transaction? then TRANSACTION_PERMITS else GENERAL_PERMITS
  }

  function PoolOf(l: Loop, guard: Guard): Pool {
    if guard.Transaction? then l.transaction else l.general
  }

  function WithPool(l: Loop, guard: Guard, p: Pool): Loop {
    if guard.Transaction? then l.(transaction := p) else l.(general := p)
  }

  function Spawn(l: Loop, guard: Guard, work: Work): Loop {
    WithPool(l, guard, Dispatched(PoolOf(l, guard), work))
  }

  // The arms of the match; size is the number of orders claimed together.
  function Taken(l: Loop, size: nat, event: Cont): Loop {
    match event
    case Preparing(_, _) => Spawn(l, Transaction, Handling(event))
    case Executing(_, _) => Spawn(l, Transaction, Handling(event))
    case PostFillReady(_) => Spawn(l, Transaction, Handling(event))
    case PreClaimReady(_) => Spawn(l, Transaction, Handling(event))
    case TxPending(_, _, _, _) => Spawn(l, General, Handling(event))
    case TxConfirmed(_, _, _, _) => Spawn(l, General, Handling(event))
    case TxFailed(_, _, _) => Spawn(l, General, Handling(event))
    case ClaimReady(id) =>
      var batch, received := l.batch + [id], l.received + [id];
      if |batch| >= size then Spawn(l.(batch := [], received := received), Transaction, Claiming(batch))
      else l.(batch := batch, received := received)
    case _ => l
  }

  predicate Idle(l: Loop) {
    !l.transaction.waiting && !l.general.waiting
  }

  predicate Enabled(l: Loop, step: Step) {
    match step
    case TakeIntent(_) => Idle(l)
    case TakeEvent(_) => Idle(l)
    case Grant(guard) => CanGrant(PoolOf(l, guard))
    case Begin(guard, task) => task in PoolOf(l, guard).spawned
    case End(guard, task) => task in PoolOf(l, guard).running
  }

  function Next(l: Loop, size: nat, step: Step): Loop
    requires Enabled(l, step)
  {
    match step
    case TakeIntent(intent) => Spawn(l, General, Discovered(intent))
    case TakeEvent(event) => Taken(l, size, event)
    case Grant(guard) => WithPool(l, guard, Granted(PoolOf(l, guard)))
    case Begin(guard, task) => WithPool(l, guard, Begun(PoolOf(l, guard), task))
    case End(guard, task) => WithPool(l, guard, Ended(PoolOf(l, guard), task))
  }

  ghost predicate IsRun(size: nat, loops: seq<Loop>, steps: seq<Step>) {
    && |loops| == |steps| + 1 && loops[0] == START
    && forall i | 0 <= i < |steps| :: Enabled(loops[i], steps[i]) && loops[i + 1] == Next(loops[i], size, steps[i])
  }

  // ----- the loop as it is written -----

  class Dispatcher {
    var transaction: Pool
    var general: Pool
    var claimBatch: seq<OrderId>
    ghost var received: seq<OrderId>

    constructor ()
      ensures TheLoop() == START
    {
      transaction, general := NewPool(TRANSACTION_PERMITS), NewPool(GENERAL_PERMITS);
      claimBatch, received := [], [];
    }

    ghost function TheLoop(): Loop
      reads this
    {
      Loop(transaction, general, claimBatch, received)
    }

    // One turn of the loop, up to the wait for a permit.
    method OnEvent(event: Cont)
      requires Idle(TheLoop())
      modifies this
      ensures TheLoop() == Next(old(TheLoop()), CLAIM_BATCH, TakeEvent(event))
    {
      match event
      case Preparing(_, _) => SpawnHandler(Transaction, Handling(event));
      case Executing(_, _) => SpawnHandler(Transaction, Handling(event));
      case PostFillReady(_) => SpawnHandler(Transaction, Handling(event));
      case PreClaimReady(_) => SpawnHandler(Transaction, Handling(event));
      case TxPending(_, _, _, _) => SpawnHandler(General, Handling(event));
      case TxConfirmed(_, _, _, _) => SpawnHandler(General, Handling(event));
      case TxFailed(_, _, _) => SpawnHandler(General, Handling(event));
      case ClaimReady(id) =>
        claimBatch, received := claimBatch + [id], received + [id];
        if |claimBatch| >= CLAIM_BATCH {
          var batch := claimBatch;
          claimBatch := [];
          SpawnHandler(Transaction, Claiming(batch));
        }
      case _ =>
    }

    method OnIntent(intent: OrderId)
      requires Idle(TheLoop())
      modifies this
      ensures TheLoop() == Next(old(TheLoop()), CLAIM_BATCH, TakeIntent(intent))
    {
      SpawnHandler(General, Discovered(intent));
    }

    method SpawnHandler(guard: Guard, work: Work)
      modifies this`transaction, this`general
      ensures TheLoop() == Spawn(old(TheLoop()), guard, work)
    {
      if guard.Transaction? {
        transaction := Dispatched(transaction, work);
      } else {
        general := Dispatched(general, work);
      }
    }

    // The permit is there: the task is spawned with it and the loop goes on.
    method OnPermit(guard: Guard)
      requires CanGrant(PoolOf(TheLoop(), guard))
      modifies this`transaction, this`general
      ensures TheLoop() == Next(old(TheLoop()), CLAIM_BATCH, Grant(guard))
    {
      if guard.Transaction? {
        transaction := Granted(transaction);
      } else {
        general := Granted(general);
      }
    }
  }

  // ----- what a pool keeps -----

  // The tasks that have got their permit.
  function Served(p: Pool): int {
    |p.dispatched| - if p.waiting then 1 else 0
  }

  ghost predicate PoolInv(capacity: nat, p: Pool) {
    && (p.waiting ==> p.dispatched != [])
    && p.permits + |p.spawned| + |p.running| == capacity
    && p.spawned !! p.running
    && (forall t | t in p.spawned || t in p.running :: t < Served(p))
    && (forall t | 0 <= t < Served(p) :: t in p.begun <==> t !in p.spawned)
    && (forall t | t in p.begun :: 0 <= t < Served(p))
    && (forall t | t in p.running :: t in p.begun)
    && (forall i, j | 0 <= i < j < |p.begun| :: p.begun[i] != p.begun[j])
  }

  lemma DispatchKeeps(capacity: nat, p: Pool, work: Work)
    requires PoolInv(capacity, p) && !p.waiting
    ensures PoolInv(capacity, Dispatched(p, work))
  {
  }

  lemma GrantKeeps(capacity: nat, p: Pool)
    requires PoolInv(capacity, p) && CanGrant(p)
    ensures PoolInv(capacity, Granted(p))
  {
  }

  lemma BeginKeeps(capacity: nat, p: Pool, task: nat)
    requires PoolInv(capacity, p) && task in p.spawned
    ensures PoolInv(capacity, Begun(p, task))
  {
    assert forall t :: t in p.begun + [task] <==> t in p.begun || t == task;
  }

  lemma EndKeeps(capacity: nat, p: Pool, task: nat)
    requires PoolInv(capacity, p) && task in p.running
    ensures PoolInv(capacity, Ended(p, task))
  {
  }

  // With one permit, tasks begin in the order of dispatch, and only the last one served is not yet over.
  ghost predicate Serial(p: Pool) {
    && (forall i | 0 <= i < |p.begun| :: p.begun[i] == i)
    && (forall t | t in p.spawned || t in p.running :: t == Served(p) - 1)
  }

  lemma GrantIsSerial(p: Pool)
    requires PoolInv(1, p) && Serial(p) && CanGrant(p)
    ensures Serial(Granted(p))
  {
    assert |p.spawned| == 0 && |p.running| == 0;
  }

  lemma BeginIsSerial(p: Pool, task: nat)
    requires PoolInv(1, p) && Serial(p) && task in p.spawned
    ensures Serial(Begun(p, task))
  {
    Single(p.spawned, task);
    EveryBegun(p);
    assert |p.begun| < Served(p) ==> |p.begun| in p.spawned;
  }

  // Numbers below the number of tasks begun are exactly those of the tasks begun.
  lemma EveryBegun(p: Pool)
    requires PoolInv(1, p) && Serial(p)
    ensures forall t: nat :: t in p.begun <==> t < |p.begun|
    ensures |p.begun| <= Served(p)
  {
    forall t: nat
      ensures t in p.begun <==> t < |p.begun|
    {
      assert t < |p.begun| ==> p.begun[t] == t;
    }
    assert |p.begun| > 0 ==> |p.begun| - 1 in p.begun;
  }

  lemma Single(s: set<nat>, t: nat)
    requires t in s && |s| <= 1
    ensures s == {t}
  {
    assert |s - {t}| == 0;
  }

  // ----- what the loop keeps -----

  ghost function BatchesOf(works: seq<Work>): seq<OrderId> {
    if works == [] then []
    else BatchesOf(works[..|works| - 1]) + (var last := works[|works| - 1]; if last.Claiming? then last.ids else [])
  }

  ghost predicate LoopInv(size: nat, l: Loop) {
    && PoolInv(TRANSACTION_PERMITS, l.transaction) && Serial(l.transaction)
    && PoolInv(GENERAL_PERMITS, l.general)
    && !(l.transaction.waiting && l.general.waiting)
    && l.received == BatchesOf(l.transaction.dispatched) + l.batch
    && |l.batch| < size
    && (forall w | w in l.transaction.dispatched :: Guarded(w, Transaction) && (w.Claiming? ==> |w.ids| == size))
    && (forall w | w in l.general.dispatched :: Guarded(w, General))
  }

  // Which semaphore guards which handler.
  predicate Guarded(w: Work, guard: Guard) {
    match w
    case Discovered(_) => guard.General?
    case Claiming(_) => guard.Transaction?
    case Handling(e) =>
      if guard.Transaction? then e.Preparing? || e.Executing? || e.PostFillReady? || e.PreClaimReady?
      else e.TxPending? || e.TxConfirmed? || e.TxFailed?
  }

  lemma SpawnKeeps(size: nat, l: Loop, guard: Guard, work: Work)
    requires LoopInv(size, l) && Idle(l) && Guarded(work, guard) && !work.Claiming?
    ensures LoopInv(size, Spawn(l, guard, work))
  {
    DispatchKeeps(Capacity(guard), PoolOf(l, guard), work);
    BatchesNext(l.transaction.dispatched, work);
  }

  lemma BatchesNext(works: seq<Work>, work: Work)
    ensures BatchesOf(works + [work]) == BatchesOf(works) + if work.Claiming? then work.ids else []
  {
    assert (works + [work])[..|works|] == works;
  }

  lemma ClaimKeeps(size: nat, l: Loop, id: OrderId)
    requires LoopInv(size, l) && Idle(l)
    ensures LoopInv(size, Taken(l, size, ClaimReady(id)))
  {
    var batch := l.batch + [id];
    AppendAssociates(BatchesOf(l.transaction.dispatched), l.batch, id);
    if |batch| >= size {
      DispatchKeeps(TRANSACTION_PERMITS, l.transaction, Claiming(batch));
      BatchesNext(l.transaction.dispatched, Claiming(batch));
    }
  }

  lemma AppendAssociates(a: seq<OrderId>, b: seq<OrderId>, id: OrderId)
    ensures (a + b) + [id] == a + (b + [id])
  {
  }

  lemma NextKeeps(size: nat, l: Loop, step: Step)
    requires size > 0 && LoopInv(size, l) && Enabled(l, step)
    ensures LoopInv(size, Next(l, size, step))
  {
    match step
    case TakeIntent(intent) => SpawnKeeps(size, l, General, Discovered(intent));
    case TakeEvent(event) => TakeKeeps(size, l, event);
    case Grant(guard) =>
      GrantKeeps(Capacity(guard), PoolOf(l, guard));
      if guard.Transaction? {
        GrantIsSerial(l.transaction);
      }
    case Begin(guard, task) =>
      BeginKeeps(Capacity(guard), PoolOf(l, guard), task);
      if guard.Transaction? {
        BeginIsSerial(l.transaction, task);
      }
    case End(guard, task) =>
      EndKeeps(Capacity(guard), PoolOf(l, guard), task);
  }

  lemma TakeKeeps(size: nat, l: Loop, event: Cont)
    requires size > 0 && LoopInv(size, l) && Idle(l)
    ensures LoopInv(size, Taken(l, size, event))
  {
    if event.ClaimReady? {
      ClaimKeeps(size, l, event.id);
    } else if Guarded(Handling(event), Transaction) {
      SpawnKeeps(size, l, Transaction, Handling(event));
    } else if Guarded(Handling(event), General) {
      SpawnKeeps(size, l, General, Handling(event));
    }
  }

  lemma {:induction false} LoopInvHolds(size: nat, loops: seq<Loop>, steps: seq<Step>, i: nat)
    requires size > 0 && IsRun(size, loops, steps) && i < |loops|
    ensures LoopInv(size, loops[i])
  {
    if i > 0 {
      LoopInvHolds(size, loops, steps, i - 1);
      NextKeeps(size, loops[i - 1], steps[i - 1]);
    }
  }

  // ----- in every interleaving -----

  // At most one transaction-sending handler runs, and when it does, all those dispatched before it have ended.
  lemma TransactionsAreSerial(size: nat, loops: seq<Loop>, steps: seq<Step>, i: nat, task: nat)
    requires size > 0 && IsRun(size, loops, steps) && i < |loops|
    requires task in loops[i].transaction.running
    ensures loops[i].transaction.running == {task} && loops[i].transaction.spawned == {}
    ensures loops[i].transaction.begun == seq(task + 1, t requires 0 <= t <= task => t)
  {
    LoopInvHolds(size, loops, steps, i);
    var p := loops[i].transaction;
    Single(p.running, task);
    assert |p.running| == 1 && |p.spawned| == 0;
    assert task in p.begun;
    EveryBegun(p);
  }

  // At most a hundred of the other handlers hold a permit.
  lemma AtMostHundredOthers(size: nat, loops: seq<Loop>, steps: seq<Step>, i: nat)
    requires size > 0 && IsRun(size, loops, steps) && i < |loops|
    ensures |loops[i].general.spawned + loops[i].general.running| <= 100
    ensures forall w | w in loops[i].general.dispatched :: Guarded(w, General)
    ensures forall w | w in loops[i].transaction.dispatched :: Guarded(w, Transaction)
  {
    LoopInvHolds(size, loops, steps, i);
    var p := loops[i].general;
    assert |p.spawned + p.running| == |p.spawned| + |p.running|;
  }

  // Every order id received for claiming is in exactly one place: a batch, in order of arrival, or the
  // incomplete batch that is still pending.
  lemma EachClaimEntersOneBatch(size: nat, loops: seq<Loop>, steps: seq<Step>, i: nat)
    requires size > 0 && IsRun(size, loops, steps) && i < |loops|
    ensures loops[i].received == BatchesOf(loops[i].transaction.dispatched) + loops[i].batch
    ensures |loops[i].batch| < size
    ensures forall w | w in loops[i].transaction.dispatched && w.Claiming? :: |w.ids| == size
    ensures size == CLAIM_BATCH ==> BatchesOf(loops[i].transaction.dispatched) == loops[i].received
  {
    LoopInvHolds(size, loops, steps, i);
  }

  // ----- nothing is lost or made up -----

  // The events that send transactions, except claims, as the loop took them.
  function TransactionsTaken(steps: seq<Step>): seq<Work> {
    if steps == [] then []
    else
      var last := steps[|steps| - 1];
      TransactionsTaken(steps[..|steps| - 1]) +
      if last.TakeEvent? && (last.event.Preparing? || last.event.Executing? || last.event.PostFillReady?
                             || last.event.PreClaimReady?)
      then [Handling(last.event)] else []
  }

  // The intents and the events about transactions.
  function OthersTaken(steps: seq<Step>): seq<Work> {
    if steps == [] then []
    else
      var last := steps[|steps| - 1];
      OthersTaken(steps[..|steps| - 1]) +
      if last.TakeIntent? then [Discovered(last.intent)]
      else if last.TakeEvent? && (last.event.TxPending? || last.event.TxConfirmed? || last.event.TxFailed?)
      then [Handling(last.event)] else []
  }

  function ClaimsTaken(steps: seq<Step>): seq<OrderId> {
    if steps == [] then []
    else
      var last := steps[|steps| - 1];
      ClaimsTaken(steps[..|steps| - 1]) + if last.TakeEvent? && last.event.ClaimReady? then [last.event.id] else []
  }

  function NotClaiming(works: seq<Work>): seq<Work> {
    if works == [] then []
    else NotClaiming(works[..|works| - 1]) + if works[|works| - 1].Claiming? then [] else [works[|works| - 1]]
  }

  lemma NotClaimingNext(works: seq<Work>, work: Work)
    ensures NotClaiming(works + [work]) == NotClaiming(works) + if work.Claiming? then [] else [work]
  {
    assert (works + [work])[..|works|] == works;
  }

  // One step adds to the dispatched work what it took, and only that.
  ghost predicate Adds(l: Loop, m: Loop, transactions: seq<Work>, others: seq<Work>, claims: seq<OrderId>) {
    && NotClaiming(m.transaction.dispatched) == NotClaiming(l.transaction.dispatched) + transactions
    && m.general.dispatched == l.general.dispatched + others
    && m.received == l.received + claims
  }

  lemma NextDispatches(l: Loop, size: nat, step: Step)
    requires Enabled(l, step)
    ensures Adds(l, Next(l, size, step), TransactionsTaken([step]), OthersTaken([step]), ClaimsTaken([step]))
  {
    assert [step][..0] == [];
    if step.TakeEvent? {
      if step.event.ClaimReady? {
        ClaimDispatches(l, size, step.event.id);
      } else {
        EventDispatches(l, size, step.event);
      }
    } else {
      QuietDispatches(l, size, step);
    }
  }

  lemma ClaimDispatches(l: Loop, size: nat, id: OrderId)
    ensures Adds(l, Taken(l, size, ClaimReady(id)), [], [], [id])
  {
    NotClaimingNext(l.transaction.dispatched, Claiming(l.batch + [id]));
  }

  lemma EventDispatches(l: Loop, size: nat, e: Cont)
    requires !e.ClaimReady?
    ensures Adds(l, Taken(l, size, e),
                 if e.Preparing? || e.Executing? || e.PostFillReady? || e.PreClaimReady? then [Handling(e)] else [],
                 if e.TxPending? || e.TxConfirmed? || e.TxFailed? then [Handling(e)] else [], [])
  {
    NotClaimingNext(l.transaction.dispatched, Handling(e));
  }

  lemma QuietDispatches(l: Loop, size: nat, step: Step)
    requires Enabled(l, step) && !step.TakeEvent?
    ensures Adds(l, Next(l, size, step), [], if step.TakeIntent? then [Discovered(step.intent)] else [], [])
  {
  }

  lemma TakenNext(steps: seq<Step>, step: Step)
    ensures TransactionsTaken(steps + [step]) == TransactionsTaken(steps) + TransactionsTaken([step])
    ensures OthersTaken(steps + [step]) == OthersTaken(steps) + OthersTaken([step])
    ensures ClaimsTaken(steps + [step]) == ClaimsTaken(steps) + ClaimsTaken([step])
  {
    assert (steps + [step])[..|steps|] == steps && [step][..0] == [];
  }

  // In every run the dispatched work is what the loop took: each event under the semaphore of its kind, once,
  // in order and with its own payload; and the ids received for claiming are those of the claim events.
  lemma {:induction false} DispatchedIsTaken(size: nat, loops: seq<Loop>, steps: seq<Step>, i: nat)
    requires IsRun(size, loops, steps) && i < |loops|
    ensures NotClaiming(loops[i].transaction.dispatched) == TransactionsTaken(steps[..i])
    ensures loops[i].general.dispatched == OthersTaken(steps[..i])
    ensures loops[i].received == ClaimsTaken(steps[..i])
  {
    if i > 0 {
      DispatchedIsTaken(size, loops, steps, i - 1);
      NextDispatches(loops[i - 1], size, steps[i - 1]);
      assert steps[..i] == steps[..i - 1] + [steps[i - 1]];
      TakenNext(steps[..i - 1], steps[i - 1]);
    }
  }
}
