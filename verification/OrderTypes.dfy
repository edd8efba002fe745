/** Orders, their statuses and the transition table of the order state machine. */
module OrderTypes {
  import opened Wrappers

  type OrderId = string
  type ChainId = nat
  // A transaction hash; only its identity matters.
  type Hash = nat

  datatype TxType = Prepare | Fill | PostFill | PreClaim | Claim

  datatype Status =
    | Created
    | Pending
    | Executing
    | Executed
    | PostFilled
    | PreClaimed
    | Settled
    | Finalized
    | Failed(tx: TxType)

  datatype ExecutionParams = ExecutionParams(gasPrice: nat, priorityFee: Option<nat>)

  datatype FillProof = FillProof(txHash: Hash, blockNumber: nat, filledTimestamp: nat)

  // The chain lists keep the chain ids only; settler addresses never steer the lifecycle.
  datatype Order = Order(
    id: OrderId,
    standard: string,
    inputChains: seq<ChainId>,
    outputChains: seq<ChainId>,
    status: Status,
    executionParams: Option<ExecutionParams>,
    prepareTx: Option<Hash>,
    fillTx: Option<Hash>,
    postFillTx: Option<Hash>,
    preClaimTx: Option<Hash>,
    claimTx: Option<Hash>,
    fillProof: Option<FillProof>)

  function NewOrder(id: OrderId, standard: string, inputChains: seq<ChainId>, outputChains: seq<ChainId>): Order {
    Order(id, standard, inputChains, outputChains, Created, None, None, None, None, None, None, None)
  }

  function TxOf(o: Order, t: TxType): Option<Hash> {
    match t
    case Prepare => o.prepareTx
    case Fill => o.fillTx
    case PostFill => o.postFillTx
    case PreClaim => o.preClaimTx
    case Claim => o.claimTx
  }

  function WithTx(o: Order, t: TxType, h: Hash): Order {
    match t
    case Prepare => o.(prepareTx := Some(h))
    case Fill => o.(fillTx := Some(h))
    case PostFill => o.(postFillTx := Some(h))
    case PreClaim => o.(preClaimTx := Some(h))
    case Claim => o.(claimTx := Some(h))
  }

  // The transition table, row by row.
  predicate IsValidTransition(from: Status, to: Status) {
    match from
    case Created => to.Pending? || to.Executing? || to.Failed?
    case Pending => to.Executing? || to.Failed?
    case Executing => to.Executed? || to.Failed?
    case Executed => to.PostFilled? || to.Settled? || to.Failed?
    case PostFilled => to.Settled? || to.Failed?
    case PreClaimed => to.Finalized? || to.Failed?
    case Settled => to.PreClaimed? || to.Finalized? || to.Failed?
    case Failed(_) => false
    case Finalized => false
  }

  // The same as a list: the ten ways on, and failure from everywhere but the end.
  lemma TheEdges(from: Status, to: Status)
    ensures IsValidTransition(from, to) <==>
      || (to.Failed? && !from.Failed? && !from.Finalized?)
      || (from, to) in {
           (Created, Pending), (Created, Executing), (Pending, Executing), (Executing, Executed),
           (Executed, PostFilled), (Executed, Settled), (PostFilled, Settled), (Settled, PreClaimed),
           (Settled, Finalized), (PreClaimed, Finalized)}
  {
  }

  predicate IsTerminal(s: Status) {
    s.Finalized? || s.Failed?
  }

  // The height of a status in the lifecycle; both terminal statuses are at the top.
  function Rank(s: Status): nat {
    match s
    case Created => 0
    case Pending => 1
    case Executing => 2
    case Executed => 3
    case PostFilled => 4
    case Settled => 5
    case PreClaimed => 6
    case Finalized => 7
    case Failed(_) => 7
  }

  // transition_order_status on one record: the write happens exactly along an edge of the table.
  function Transitioned(o: Order, s: Status): Order {
    if IsValidTransition(o.status, s) then o.(status := s) else o
  }
}
