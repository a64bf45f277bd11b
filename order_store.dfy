/** The order slice as the store holds it: one object whose fields the
    reducers update in place. Each method is one reducer case and is proved
    to produce exactly the state the pure reducer of OrderReducers describes,
    so every property proved there holds of this object. */
module OrderStore {
  import opened Js
  import opened Lists
  import opened OrderReducers

  class Store {
    var orders: seq<Order>
    var order: Option<Order>
    var isLoading: bool
    var error: Option<string>
    var isDetailsOpen: bool
    var updatingOrderIds: seq<Id>
    var optimisticUpdates: map<Id, Overlay>

    /** The slice's current value. */
    ghost function State(): OrderSlice
      reads this
    {
      OrderSlice(orders, order, isLoading, error, isDetailsOpen, updatingOrderIds, optimisticUpdates)
    }

    constructor ()
      ensures State() == InitialSlice()
    {
      orders, order, isLoading, error := [], None, false, None;
      isDetailsOpen, updatingOrderIds, optimisticUpdates := false, [], map[];
    }

    method ClearOrder()
      modifies this
      ensures State() == OrderReducers.ClearOrder(old(State()))
    {
      order := None;
    }

    method ClearError()
      modifies this
      ensures State() == OrderReducers.ClearError(old(State()))
    {
      error := None;
    }

    method SetIsDetailsOpen(open: bool)
      modifies this
      ensures State() == OrderReducers.SetIsDetailsOpen(old(State()), open)
    {
      isDetailsOpen := open;
    }

    method SetOrderOptimistically(o: Order)
      modifies this
      ensures State() == OrderReducers.SetOrderOptimistically(old(State()), o)
    {
      order := Some(o);
    }

    /** Writes `status` onto the first listed order with `id` and onto the
        current order when it has `id`: the step the optimistic update, its
        revert and a reverting rejection share. */
    method ShowStatus(id: Id, status: string)
      modifies this
      ensures orders == SetFirstStatus(old(orders), id, status)
      ensures order == SetCurrentStatus(old(order), id, status)
      ensures isLoading == old(isLoading) && error == old(error) && isDetailsOpen == old(isDetailsOpen)
      ensures updatingOrderIds == old(updatingOrderIds) && optimisticUpdates == old(optimisticUpdates)
    {
      var orderIndex := FindIndex(orders, HasId(id));
      if orderIndex != -1 {
        orders := orders[orderIndex := orders[orderIndex].(status := status)];
      }
      if order.Some? && order.value.id == id {
        order := Some(order.value.(status := status));
      }
    }

    method UpdateOrderStatusOptimistically(id: Id, status: string, previousStatus: Option<string>)
      modifies this
      ensures State() == OrderReducers.UpdateOrderStatusOptimistically(old(State()), id, status, previousStatus)
    {
      optimisticUpdates := optimisticUpdates[id := Overlay(status, previousStatus)];
      ShowStatus(id, status);
    }

    method RevertOrderStatusUpdate(id: Id, status: string)
      modifies this
      ensures State() == OrderReducers.RevertOrderStatusUpdate(old(State()), id, status)
    {
      ShowStatus(id, status);
      optimisticUpdates := optimisticUpdates - {id};
    }

    method FetchOrdersPending()
      modifies this
      ensures State() == OrderReducers.FetchOrdersPending(old(State()))
    {
      isLoading := true;
      error := None;
    }

    method FetchOrdersFulfilled(payload: seq<Order>)
      modifies this
      ensures State() == OrderReducers.FetchOrdersFulfilled(old(State()), payload)
    {
      isLoading := false;
      orders := WithOverlays(payload, optimisticUpdates);
    }

    method FetchOrdersRejected(payload: Option<string>)
      modifies this
      ensures State() == OrderReducers.FetchOrdersRejected(old(State()), payload)
    {
      isLoading := false;
      error := payload;
    }

    /** The thunk's `condition`, read from the current state. */
    method ShouldFetchOrderById(id: Id) returns (fetch: bool)
      ensures fetch == OrderReducers.ShouldFetchOrderById(State(), id)
      ensures !fetch <==> order.Some? && order.value.id == id && order.value.products.Some?
    {
      fetch := !(order.Some? && order.value.id == id && order.value.products.Some?);
    }

    method FetchOrderByIdPending()
      modifies this
      ensures State() == OrderReducers.FetchOrderByIdPending(old(State()))
    {
      if order.None? {
        isLoading := true;
      }
      error := None;
    }

    method FetchOrderByIdFulfilled(payload: Order)
      modifies this
      ensures State() == OrderReducers.FetchOrderByIdFulfilled(old(State()), payload)
    {
      isLoading := false;
      var o := payload;
      if o.id in optimisticUpdates {
        o := o.(status := optimisticUpdates[o.id].status);
      }
      order := Some(o);
    }

    method FetchOrderByIdRejected(payload: Option<string>)
      modifies this
      ensures State() == OrderReducers.FetchOrderByIdRejected(old(State()), payload)
    {
      isLoading := false;
      error := payload;
    }

    method UpdateOrderStatusPending(id: Id)
      modifies this
      ensures State() == OrderReducers.UpdateOrderStatusPending(old(State()), id)
    {
      updatingOrderIds := updatingOrderIds + [id];
    }

    method UpdateOrderStatusFulfilled(id: Id, payload: Option<OrderPatch>)
      modifies this
      ensures State() == OrderReducers.UpdateOrderStatusFulfilled(old(State()), id, payload)
    {
      updatingOrderIds := Filter(updatingOrderIds, IsNot(id));
      optimisticUpdates := optimisticUpdates - {id};
      if payload.Some? {
        orders := MergeWhereId(orders, id, payload.value);
        if order.Some? && order.value.id == id {
          order := Some(Merge(order.value, payload.value));
        }
      }
    }

    method UpdateOrderStatusRejected(id: Id, payload: Option<RejectPayload>)
      modifies this
      ensures State() == OrderReducers.UpdateOrderStatusRejected(old(State()), id, payload)
    {
      updatingOrderIds := Filter(updatingOrderIds, IsNot(id));
      if payload.Some? && Truthy(payload.value.previousStatus) {
        ShowStatus(id, payload.value.previousStatus.value);
        optimisticUpdates := optimisticUpdates - {id};
      }
      error := Some(if payload.Some? then OrElse(payload.value.error, UpdateFailedMessage) else UpdateFailedMessage);
    }
  }
}
