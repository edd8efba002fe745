/** The order state machine: the stored orders and the status index kept beside them. */
module OrderStore {
  import opened Wrappers
  import opened OrderTypes
  import opened Json

  datatype OrderStateError = Storage | InvalidTransition(from: Status, to: Status)

  function TxTypeName(t: TxType): string {
    match t
    case Prepare => "Prepare"
    case Fill => "Fill"
    case PostFill => "PostFill"
    case PreClaim => "PreClaim"
    case Claim => "Claim"
  }

  // status.to_string(): what update_order_with and store_order put in the index.
  function DisplayName(s: Status): string {
    match s
    case Created => "Created"
    case Pending => "Pending"
    case Executing => "Executing"
    case Executed => "Executed"
    case PostFilled => "PostFilled"
    case PreClaimed => "PreClaimed"
    case Settled => "Settled"
    case Finalized => "Finalized"
    case Failed(_) => "Failed"
  }

  function IndexValue(s: Status): Json {
    JString(DisplayName(s))
  }

  // serde_json::to_value(status): camelCase names, and an object for the variant that carries data.
  function SerdeValue(s: Status): Json {
    match s
    case Created => JString("created")
    case Pending => JString("pending")
    case Executing => JString("executing")
    case Executed => JString("executed")
    case PostFilled => JString("postFilled")
    case PreClaimed => JString("preClaimed")
    case Settled => JString("settled")
    case Finalized => JString("finalized")
    case Failed(t) => JObject(map["failed" := JString(TxTypeName(t))])
  }

  class OrderStateMachine {
    var orders: map<OrderId, Order>
    var statusIndex: map<OrderId, Json>

    // Every stored order has exactly one index entry, which names its current status.
    ghost predicate Valid()
      reads this
    {
      && statusIndex.Keys == orders.Keys
      && forall id :: id in orders ==> statusIndex[id] == IndexValue(orders[id].status)
    }

    constructor ()
      ensures Valid() && orders == map[]
    {
      orders, statusIndex := map[], map[];
    }

    method StoreOrder(order: Order)
      requires Valid()
      modifies this
      ensures Valid()
      ensures orders == old(orders)[order.id := order]
    {
      orders := orders[order.id := order];
      statusIndex := statusIndex[order.id := IndexValue(order.status)];
    }

    method GetOrder(id: OrderId) returns (r: Result<Order, OrderStateError>)
      ensures r == if id in orders then Ok(orders[id]) else Err(Storage)
    {
      r := if id in orders then Ok(orders[id]) else Err(Storage);
    }

    method UpdateOrderWith(id: OrderId, updater: Order -> Order) returns (r: Result<Order, OrderStateError>)
      requires Valid()
      modifies this
      ensures Valid()
      ensures id !in old(orders) ==> r == Err(Storage) && orders == old(orders)
      ensures id in old(orders) ==>
        r == Ok(updater(old(orders)[id])) && orders == old(orders)[id := updater(old(orders)[id])]
    {
      var found := GetOrder(id);
      if found.Err? {
        return Err(found.error);
      }
      var order := updater(found.value);
      orders := orders[id := order];
      statusIndex := statusIndex[id := IndexValue(order.status)];
      r := Ok(order);
    }

    // The guarded write: the store changes exactly along an edge of the transition table.
    method TransitionOrderStatus(id: OrderId, status: Status) returns (r: Result<Order, OrderStateError>)
      requires Valid()
      modifies this
      ensures Valid()
      ensures id !in old(orders) ==> r == Err(Storage) && orders == old(orders)
      ensures id in old(orders) ==>
        var before := old(orders)[id];
        && orders == old(orders)[id := Transitioned(before, status)]
        && r == if IsValidTransition(before.status, status) then Ok(before.(status := status))
                else Err(InvalidTransition(before.status, status))
    {
      var found := GetOrder(id);
      if found.Err? {
        return Err(found.error);
      }
      if !IsValidTransition(found.value.status, status) {
        assert orders == orders[id := orders[id]];
        return Err(InvalidTransition(found.value.status, status));
      }
      r := UpdateOrderWith(id, (o: Order) => o.(status := status));
    }

    method SetTransactionHash(id: OrderId, hash: Hash, tx: TxType) returns (r: Result<Order, OrderStateError>)
      requires Valid()
      modifies this
      ensures Valid()
      ensures id !in old(orders) ==> r == Err(Storage) && orders == old(orders)
      ensures id in old(orders) ==>
        var after := WithTx(old(orders)[id], tx, hash);
        r == Ok(after) && orders == old(orders)[id := after]
    {
      r := UpdateOrderWith(id, (o: Order) => WithTx(o, tx, hash));
    }

    method SetFillProof(id: OrderId, proof: FillProof) returns (r: Result<Order, OrderStateError>)
      requires Valid()
      modifies this
      ensures Valid()
      ensures id !in old(orders) ==> r == Err(Storage) && orders == old(orders)
      ensures id in old(orders) ==>
        var after := old(orders)[id].(fillProof := Some(proof));
        r == Ok(after) && orders == old(orders)[id := after]
    {
      r := UpdateOrderWith(id, (o: Order) => o.(fillProof := Some(proof)));
    }

    // The NotIn query on the index: the ids whose entry is none of the values, in some order.
    method IdsNotIn(values: seq<Json>) returns (ids: seq<OrderId>)
      requires Valid()
      ensures forall i, j :: 0 <= i < j < |ids| ==> ids[i] != ids[j]
      ensures forall id :: id in ids <==> id in orders && IndexValue(orders[id].status) !in values
    {
      ids := [];
      var rest := statusIndex.Keys;
      while rest != {}
        invariant rest <= statusIndex.Keys
        invariant forall i, j :: 0 <= i < j < |ids| ==> ids[i] != ids[j]
        invariant forall id :: id in ids <==> id in statusIndex.Keys - rest && statusIndex[id] !in values
        decreases rest
      {
        var id :| id in rest;
        assert id !in ids;
        rest := rest - {id};
        if statusIndex[id] !in values {
          ids := ids + [id];
        }
      }
    }
  }
}
