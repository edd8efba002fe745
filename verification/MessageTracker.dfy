/** The cache of message states in front of their storage. */
module MessageTracker {
  import opened Wrappers
  import opened Words
  import opened Bytes
  import opened FileDisk
  import opened FileTheorems
  import opened FillDescription

  type OrderId = string

  // Delivered messages are stored for seven days.
  const DELIVERED_TTL: u64 := 7 * 24 * 60 * 60

  datatype SubmittedMessage = SubmittedMessage(
    messageId: Bytes32, originChain: u64, destinationChain: u64, submissionTxHash: seq<byte>,
    submissionTimestamp: nat, gasPayment: u256, payloadHash: Bytes32, solver: Bytes32, fillTimestamp: u32)

  datatype DeliveredMessage = DeliveredMessage(messageId: Bytes32, deliveryTimestamp: nat, payloadHash: Bytes32)

  datatype MessageState = MessageState(submitted: Option<SubmittedMessage>, delivered: Option<DeliveredMessage>)

  datatype Stored = Stored(state: MessageState, deadline: Option<u64>)

  datatype Tracker = Tracker(storage: map<OrderId, Stored>, cache: map<OrderId, MessageState>)

  const NO_MESSAGE: MessageState := MessageState(None, None)

  // ----- the operations -----

  predicate Gone(s: Stored, now: nat) {
    Passed(s.deadline, now)
  }

  function Peek(t: Tracker, now: nat, id: OrderId): Option<MessageState> {
    if id in t.cache then Some(t.cache[id])
    else if id in t.storage && !Gone(t.storage[id], now) then Some(t.storage[id].state)
    else None
  }

  // A load leaves what it found in the cache.
  function Loaded(t: Tracker, now: nat, id: OrderId): Tracker {
    var found := Peek(t, now, id);
    if found.Some? then t.(cache := t.cache[id := found.value]) else t
  }

  // Without a delivery the configured duration of the namespace applies.
  function Saved(t: Tracker, now: nat, configured: u64, id: OrderId, state: MessageState): Tracker {
    var ttl := Duration(if state.delivered.Some? then DELIVERED_TTL else configured, 0);
    Tracker(t.storage[id := Stored(state, Deadline(now, ttl))], t.cache[id := state])
  }

  function Tracked(t: Tracker, now: nat, configured: u64, id: OrderId, submission: SubmittedMessage): Tracker {
    var found := Peek(t, now, id);
    var state := if found.Some? then found.value else NO_MESSAGE;
    Saved(t, now, configured, id, state.(submitted := Some(submission)))
  }

  function Delivered(state: MessageState, now: nat, messageId: Bytes32, payloadHash: Bytes32): MessageState {
    state.(delivered := Some(DeliveredMessage(messageId, now, payloadHash)))
  }

  function Marked(t: Tracker, now: nat, configured: u64, id: OrderId, payloadHash: Bytes32): Tracker {
    var found := Peek(t, now, id);
    if found.None? then t
    else if found.value.submitted.None? then Loaded(t, now, id)
    else
      Saved(t, now, configured, id, Delivered(found.value, now, found.value.submitted.value.messageId, payloadHash))
  }

  // proven is the answer of the chain, or the error met on the way to it.
  function Checked(t: Tracker, now: nat, configured: u64, id: OrderId, messageId: Bytes32,
                   proven: Result<bool, SettlementError>): Tracker
  {
    var found := Peek(t, now, id);
    if found.None? || found.value.delivered.Some? || found.value.submitted.None? || proven != Ok(true) then
      Loaded(t, now, id)
    else
      Saved(t, now, configured, id, Delivered(found.value, now, messageId, found.value.submitted.value.payloadHash))
  }

  function CheckResult(t: Tracker, now: nat, id: OrderId, proven: Result<bool, SettlementError>):
    Result<bool, SettlementError>
  {
    var found := Peek(t, now, id);
    if found.Some? && found.value.delivered.Some? then Ok(true)
    else if found.None? || found.value.submitted.None? then Err(ValidationFailed("No submission info"))
    else proven
  }

  class MessageTracker {
    var storage: map<OrderId, Stored>
    var cache: map<OrderId, MessageState>
    const configured: u64

    // A new process starts with what is stored and an empty cache.
    constructor (storage: map<OrderId, Stored>, configured: u64)
      ensures TheTracker() == Tracker(storage, map[]) && this.configured == configured
    {
      this.storage, cache, this.configured := storage, map[], configured;
    }

    ghost function TheTracker(): Tracker
      reads this
    {
      Tracker(storage, cache)
    }

    method LoadMessage(now: nat, id: OrderId) returns (state: Option<MessageState>)
      modifies this`cache
      ensures state == Peek(old(TheTracker()), now, id)
      ensures TheTracker() == Loaded(old(TheTracker()), now, id)
    {
      if id in cache {
        return Some(cache[id]);
      }
      if id !in storage || Gone(storage[id], now) {
        return None;
      }
      cache := cache[id := storage[id].state];
      state := Some(storage[id].state);
    }

    method SaveMessage(now: nat, id: OrderId, state: MessageState)
      modifies this
      ensures TheTracker() == Saved(old(TheTracker()), now, configured, id, state)
    {
      var ttl := if state.delivered.Some? then Duration(DELIVERED_TTL, 0) else Duration(configured, 0);
      storage := storage[id := Stored(state, Deadline(now, ttl))];
      cache := cache[id := state];
    }

    method TrackSubmission(now: nat, id: OrderId, submission: SubmittedMessage)
      modifies this
      ensures TheTracker() == Tracked(old(TheTracker()), now, configured, id, submission)
    {
      var found := LoadMessage(now, id);
      var state := if found.Some? then found.value else NO_MESSAGE;
      state := state.(submitted := Some(submission));
      SaveMessage(now, id, state);
    }

    method MarkDelivered(now: nat, id: OrderId, payloadHash: Bytes32) returns (r: Result<(), SettlementError>)
      modifies this
      ensures TheTracker() == Marked(old(TheTracker()), now, configured, id, payloadHash)
      ensures r.Err? <==> Peek(old(TheTracker()), now, id).None?
    {
      var found := LoadMessage(now, id);
      if found.None? {
        return Err(ValidationFailed("Message not found in tracker"));
      }
      var state := found.value;
      if state.submitted.Some? {
        state := state.(delivered := Some(DeliveredMessage(state.submitted.value.messageId, now, payloadHash)));
        SaveMessage(now, id, state);
      }
      r := Ok(());
    }

    method CheckDelivery(now: nat, id: OrderId, messageId: Bytes32, proven: Result<bool, SettlementError>)
      returns (r: Result<bool, SettlementError>)
      modifies this
      ensures TheTracker() == Checked(old(TheTracker()), now, configured, id, messageId, proven)
      ensures r == CheckResult(old(TheTracker()), now, id, proven)
    {
      var found := LoadMessage(now, id);
      var state := if found.Some? then found.value else NO_MESSAGE;
      if state.delivered.Some? {
        return Ok(true);
      }
      if state.submitted.None? {
        return Err(ValidationFailed("No submission info"));
      }
      if proven.Ok? && proven.value {
        state := state.(delivered := Some(DeliveredMessage(messageId, now, state.submitted.value.payloadHash)));
        SaveMessage(now, id, state);
      }
      r := proven;
    }
  }

  // ----- runs -----

  datatype Op =
    | Load(id: OrderId)
    | Track(id: OrderId, submission: SubmittedMessage)
    | Mark(id: OrderId, payloadHash: Bytes32)
    | Check(id: OrderId, messageId: Bytes32, proven: Result<bool, SettlementError>)
    | Cleanup
    | Wait(secs: nat)
    | Restart

  datatype World = World(tracker: Tracker, now: nat)

  function Step(w: World, configured: u64, op: Op): World {
    match op
    case Load(id) => w.(tracker := Loaded(w.tracker, w.now, id))
    case Track(id, submission) => w.(tracker := Tracked(w.tracker, w.now, configured, id, submission))
    case Mark(id, hash) => w.(tracker := Marked(w.tracker, w.now, configured, id, hash))
    case Check(id, messageId, proven) =>
      w.(tracker := Checked(w.tracker, w.now, configured, id, messageId, proven))
    case Cleanup =>
      var kept := map id | id in w.tracker.storage && !Gone(w.tracker.storage[id], w.now) :: w.tracker.storage[id];
      w.(tracker := w.tracker.(storage := kept))
    case Wait(secs) => w.(now := w.now + secs)
    case Restart => w.(tracker := w.tracker.(cache := map[]))
  }

  function After(start: World, configured: u64, ops: seq<Op>): World {
    if ops == [] then start else Step(After(start, configured, ops[..|ops| - 1]), configured, ops[|ops| - 1])
  }

  // What the operation writes to storage, if anything.
  function Written(w: World, op: Op): Option<(OrderId, MessageState)> {
    match op
    case Track(id, submission) =>
      var found := Peek(w.tracker, w.now, id);
      Some((id, (if found.Some? then found.value else NO_MESSAGE).(submitted := Some(submission))))
    case Mark(id, hash) =>
      var found := Peek(w.tracker, w.now, id);
      if found.Some? && found.value.submitted.Some?
      then Some((id, Delivered(found.value, w.now, found.value.submitted.value.messageId, hash))) else None
    case Check(id, messageId, proven) =>
      var found := Peek(w.tracker, w.now, id);
      if found.Some? && found.value.delivered.None? && found.value.submitted.Some? && proven == Ok(true)
      then Some((id, Delivered(found.value, w.now, messageId, found.value.submitted.value.payloadHash))) else None
    case _ => None
  }

  // The last state written for each order, from what was stored at the start.
  function LastWritten(start: World, configured: u64, ops: seq<Op>): map<OrderId, MessageState> {
    if ops == [] then map id | id in start.tracker.storage :: start.tracker.storage[id].state
    else
      var front := ops[..|ops| - 1];
      var last := LastWritten(start, configured, front);
      var written := Written(After(start, configured, front), ops[|ops| - 1]);
      if written.Some? then last[written.value.0 := written.value.1] else last
  }

  predicate Sound(s: MessageState) {
    s.delivered.Some? ==> s.submitted.Some?
  }

  // Cached or stored, a state is the last one written, and a delivered message has been submitted.
  ghost predicate Coherent(t: Tracker, last: map<OrderId, MessageState>) {
    && (forall id | id in t.cache :: id in last && t.cache[id] == last[id])
    && (forall id | id in t.storage :: id in last && t.storage[id].state == last[id])
    && (forall id | id in last :: Sound(last[id]))
  }

  // A process that has just started on sound storage.
  ghost predicate Fresh(w: World) {
    w.tracker.cache == map[] && forall id | id in w.tracker.storage :: Sound(w.tracker.storage[id].state)
  }

  lemma {:induction false} CacheIsLastWritten(start: World, configured: u64, ops: seq<Op>)
    requires Fresh(start)
    ensures Coherent(After(start, configured, ops).tracker, LastWritten(start, configured, ops))
  {
    if ops != [] {
      var front, op := ops[..|ops| - 1], ops[|ops| - 1];
      CacheIsLastWritten(start, configured, front);
      StepKeepsCoherence(After(start, configured, front), configured, op, LastWritten(start, configured, front));
    }
  }

  lemma StepKeepsCoherence(w: World, configured: u64, op: Op, last: map<OrderId, MessageState>)
    requires Coherent(w.tracker, last)
    ensures
      var written := Written(w, op);
      var now := if written.Some? then last[written.value.0 := written.value.1] else last;
      Coherent(Step(w, configured, op).tracker, now)
  {
  }

  // So a load finds the last state written, or nothing.
  lemma LoadsFindTheLastWrite(start: World, configured: u64, ops: seq<Op>, id: OrderId)
    requires Fresh(start)
    ensures
      var w, last := After(start, configured, ops), LastWritten(start, configured, ops);
      && (Peek(w.tracker, w.now, id).Some? ==> id in last && Peek(w.tracker, w.now, id) == Some(last[id]))
      && (id in w.tracker.cache ==> Peek(w.tracker, w.now, id) == Some(last[id]))
      && (id in last && last[id].delivered.Some? ==> last[id].submitted.Some?)
  {
    CacheIsLastWritten(start, configured, ops);
  }

  predicate KnownDelivered(w: World, id: OrderId) {
    id in w.tracker.cache && w.tracker.cache[id].delivered.Some?
  }

  // Within one process, a delivery once seen stays, however long ago its storage expired.
  lemma {:induction false} DeliveredNeverReverts(start: World, configured: u64, ops: seq<Op>, id: OrderId)
    requires KnownDelivered(start, id) && Restart !in ops
    ensures KnownDelivered(After(start, configured, ops), id)
    ensures forall proven ::
      CheckResult(After(start, configured, ops).tracker, After(start, configured, ops).now, id, proven) == Ok(true)
  {
    if ops != [] {
      DeliveredNeverReverts(start, configured, ops[..|ops| - 1], id);
    }
  }

  // What a check answers and what it leaves behind: yes exactly if the message is then known as delivered, an
  // error without a submission, and otherwise the answer of the chain.
  lemma CheckTellsTheTruth(t: Tracker, now: nat, configured: u64, id: OrderId, messageId: Bytes32,
                           proven: Result<bool, SettlementError>)
    ensures var after := Checked(t, now, configured, id, messageId, proven);
      var answer, found := CheckResult(t, now, id, proven), Peek(t, now, id);
      && (answer == Ok(true) <==> id in after.cache && after.cache[id].delivered.Some?)
      && (found.Some? && found.value.submitted.Some? && found.value.delivered.None? ==> answer == proven)
      && (found.None? || found.value == MessageState(None, None) ==> answer.Err?)
  {
  }

  // A proven message gets a delivery with the hash that was submitted; nothing else of its state changes.
  lemma DeliveryIsRecorded(t: Tracker, now: nat, configured: u64, id: OrderId, messageId: Bytes32, hash: Bytes32)
    requires Peek(t, now, id).Some? && Peek(t, now, id).value.submitted.Some?
    ensures var s := Peek(t, now, id).value;
      var marked := Marked(t, now, configured, id, hash);
      var checked := Checked(t, now, configured, id, messageId, Ok(true));
      && id in marked.cache && id in checked.cache
      && marked.cache[id] ==
           MessageState(s.submitted, Some(DeliveredMessage(s.submitted.value.messageId, now, hash)))
      && checked.cache[id] ==
           MessageState(s.submitted, if s.delivered.Some? then s.delivered
                                     else Some(DeliveredMessage(messageId, now, s.submitted.value.payloadHash)))
  {
  }

  // A submission replaces the earlier one and keeps a delivery.
  lemma SubmissionIsRecorded(t: Tracker, now: nat, configured: u64, id: OrderId, submission: SubmittedMessage)
    ensures var found, after := Peek(t, now, id), Tracked(t, now, configured, id, submission);
      && id in after.cache && id in after.storage && after.storage[id].state == after.cache[id]
      && after.cache[id] == MessageState(Some(submission), if found.Some? then found.value.delivered else None)
  {
  }

  // Other messages, loads, waits, cleanups and restarts may come; nothing is written for this order.
  predicate LeavesAlone(w: World, configured: u64, ops: seq<Op>, id: OrderId) {
    forall i | 0 <= i < |ops| ::
      var written := Written(After(w, configured, ops[..i]), ops[i]);
      written.Some? ==> written.value.0 != id
  }

  // The stored entry stays as it is until its time is over.
  lemma {:induction false} EntryStaysUntilGone(w: World, configured: u64, ops: seq<Op>, id: OrderId)
    requires id in w.tracker.storage && LeavesAlone(w, configured, ops, id)
    ensures var later := After(w, configured, ops);
      w.now <= later.now && Stays(later, id, w.tracker.storage[id])
  {
    if ops != [] {
      var front := ops[..|ops| - 1];
      assert forall i | 0 <= i < |front| :: front[..i] == ops[..i];
      EntryStaysUntilGone(w, configured, front, id);
      StepLeavesEntry(After(w, configured, front), configured, ops[|ops| - 1], id, w.tracker.storage[id]);
    }
  }

  predicate Stays(w: World, id: OrderId, entry: Stored) {
    if id in w.tracker.storage then w.tracker.storage[id] == entry else Gone(entry, w.now)
  }

  lemma StepLeavesEntry(w: World, configured: u64, op: Op, id: OrderId, entry: Stored)
    requires Stays(w, id, entry)
    requires Written(w, op).Some? ==> Written(w, op).value.0 != id
    ensures w.now <= Step(w, configured, op).now && Stays(Step(w, configured, op), id, entry)
  {
  }

  // A restart, however late in a run, finds the stored state exactly until its time is over.
  lemma RestartForgetsIff(w: World, configured: u64, ops: seq<Op>, id: OrderId)
    requires id in w.tracker.storage && LeavesAlone(w, configured, ops, id)
    ensures var later := After(w, configured, ops + [Restart]);
      Peek(later.tracker, later.now, id) ==
        if Gone(w.tracker.storage[id], later.now) then None else Some(w.tracker.storage[id].state)
  {
    EntryStaysUntilGone(w, configured, ops, id);
    AfterNext(w, configured, ops, Restart);
  }

  // So a delivery that was written is known after a restart exactly if less than seven days have passed.
  lemma DeliveryIsForgottenIff(w: World, configured: u64, op: Op, ops: seq<Op>, id: OrderId)
    requires op.Mark? || op.Check?
    requires Written(w, op).Some? && Written(w, op).value.0 == id && w.now + DELIVERED_TTL <= MAX_U64
    requires LeavesAlone(Step(w, configured, op), configured, ops, id)
    ensures var later := After(Step(w, configured, op), configured, ops + [Restart]);
      && w.now <= later.now
      && Peek(later.tracker, later.now, id) ==
           if later.now - w.now < 604_800 then Some(Written(w, op).value.1) else None
  {
    var w1 := Step(w, configured, op);
    assert w1 == w.(tracker := Saved(w.tracker, w.now, configured, id, Written(w, op).value.1));
    assert w1.tracker.storage[id] == Stored(Written(w, op).value.1, Some(w.now + DELIVERED_TTL));
    EntryStaysUntilGone(w1, configured, ops, id);
    AfterNext(w1, configured, ops, Restart);
    RestartForgetsIff(w1, configured, ops, id);
  }

  // A submission without a delivery is kept for the configured time, and for good if none is configured.
  lemma SubmissionIsForgottenIff(w: World, configured: u64, op: Op, ops: seq<Op>, id: OrderId)
    requires op.Track? && op.id == id && w.now + configured <= MAX_U64
    requires Written(w, op).value.1.delivered.None?
    requires LeavesAlone(Step(w, configured, op), configured, ops, id)
    ensures var later := After(Step(w, configured, op), configured, ops + [Restart]);
      && w.now <= later.now
      && Peek(later.tracker, later.now, id) ==
           if configured == 0 || later.now - w.now < configured then Some(Written(w, op).value.1) else None
  {
    var w1 := Step(w, configured, op);
    assert w1 == w.(tracker := Saved(w.tracker, w.now, configured, id, Written(w, op).value.1));
    EntryStaysUntilGone(w1, configured, ops, id);
    AfterNext(w1, configured, ops, Restart);
    RestartForgetsIff(w1, configured, ops, id);
  }

  lemma AfterNext(w: World, configured: u64, ops: seq<Op>, op: Op)
    ensures After(w, configured, ops + [op]) == Step(After(w, configured, ops), configured, op)
  {
    assert (ops + [op])[..|ops|] == ops;
  }
}
