/** The order slice of the store: the state it keeps, the reducers that
    change it (as pure functions from the old state to the new one), the
    payloads its asynchronous requests produce, and what the optimistic
    status-update protocol guarantees. The class in order_store.dfy applies
    these reducers in place. */
module OrderReducers {
  import opened Js
  import opened Lists

  /** Order ids are compared with `===`; the model takes them to be numbers. */
  type Id = nat

  datatype LineItem = LineItem(productId: Id, quantity: int)

  /** An order as the list and the detail view hold it. `products` is present
      only once the detailed order has been fetched. `customerName` stands for
      `order.customer?.name`, the only part of the customer the views read. */
  datatype Order = Order(
    id: Id,
    status: string,
    version: Option<int>,
    customerName: Option<string>,
    products: Option<seq<LineItem>>)

  /** The fields of a server response spread over an order
      (`{ ...order, ...payload }`); an absent field keeps the order's own. A
      `customer` object in the response replaces the order's whole customer,
      so its name (`customerName`) is replaced with it. */
  datatype OrderPatch = OrderPatch(
    id: Option<Id>,
    status: Option<string>,
    version: Option<int>,
    customerName: Option<string>,
    products: Option<seq<LineItem>>)

  /** A pending optimistic status change, keyed by order id in the overlay. */
  datatype Overlay = Overlay(status: string, previousStatus: Option<string>)

  /** The value a failed status update is rejected with. */
  datatype RejectPayload = RejectPayload(
    status: Option<int>,
    message: Option<string>,
    error: Option<string>,
    previousStatus: Option<string>)

  /** The whole state of the order slice. */
  datatype OrderSlice = OrderSlice(
    orders: seq<Order>,
    order: Option<Order>,
    isLoading: bool,
    error: Option<string>,
    isDetailsOpen: bool,
    updatingOrderIds: seq<Id>,
    optimisticUpdates: map<Id, Overlay>)

  const UpdateFailedMessage: string := "Failed to update order status"
  const ConflictMessage: string := "Version conflict - order has been modified"
  const ConflictStatus: int := 409

  function InitialSlice(): OrderSlice {
    OrderSlice([], None, false, None, false, [], map[])
  }

  /** The predicate `(order) => order.id === id`. */
  function HasId(id: Id): Order -> bool {
    (o: Order) => o.id == id
  }

  /** The predicate `(x) => x !== id`. */
  function IsNot(id: Id): Id -> bool {
    (x: Id) => x != id
  }

  /** Position `k` holds the first order with `id`, the one `findIndex` finds. */
  predicate IsFirstWithId(orders: seq<Order>, k: int, id: Id) {
    0 <= k < |orders| && orders[k].id == id && forall j :: 0 <= j < k ==> orders[j].id != id
  }

  /** The list with the status of the first order carrying `id` replaced;
      every other order, and every id, stays as it was. */
  function SetFirstStatus(orders: seq<Order>, id: Id, status: string): (r: seq<Order>)
    ensures |r| == |orders|
    ensures forall k :: 0 <= k < |r| ==> r[k].id == orders[k].id
    ensures forall k :: 0 <= k < |r| ==>
      r[k] == if IsFirstWithId(orders, k, id) then orders[k].(status := status) else orders[k]
  {
    var i := FindIndex(orders, HasId(id));
    if i == -1 then orders else orders[i := orders[i].(status := status)]
  }

  /** The current order with its status replaced when it carries `id`. */
  function SetCurrentStatus(order: Option<Order>, id: Id, status: string): Option<Order> {
    if order.Some? && order.value.id == id then Some(order.value.(status := status)) else order
  }

  /** A fetched order with the status of its pending optimistic update, if any. */
  function Overlaid(o: Order, overlays: map<Id, Overlay>): Order {
    if o.id in overlays then o.(status := overlays[o.id].status) else o
  }

  /** `payload.map(...)` in the refetch reducer: every fetched order, in order,
      carrying the overlay status when its id has one. */
  function WithOverlays(payload: seq<Order>, overlays: map<Id, Overlay>): (r: seq<Order>)
    ensures |r| == |payload|
    ensures forall k :: 0 <= k < |r| ==> r[k].id == payload[k].id
    ensures forall k :: 0 <= k < |r| && payload[k].id in overlays ==>
      r[k] == payload[k].(status := overlays[payload[k].id].status)
    ensures forall k :: 0 <= k < |r| && payload[k].id !in overlays ==> r[k] == payload[k]
  {
    if payload == [] then [] else [Overlaid(payload[0], overlays)] + WithOverlays(payload[1..], overlays)
  }

  /** `{ ...o, ...patch }`: each field the patch carries wins; each field it
      leaves out keeps the order's value. */
  function Merge(o: Order, patch: OrderPatch): (r: Order)
    ensures r.id == if patch.id.Some? then patch.id.value else o.id
    ensures r.status == if patch.status.Some? then patch.status.value else o.status
    ensures patch.version.Some? ==> r.version == patch.version
    ensures patch.version.None? ==> r.version == o.version
    ensures patch.customerName.Some? ==> r.customerName == patch.customerName
    ensures patch.customerName.None? ==> r.customerName == o.customerName
    ensures patch.products.Some? ==> r.products == patch.products
    ensures patch.products.None? ==> r.products == o.products
    ensures patch == OrderPatch(None, None, None, None, None) ==> r == o
  {
    Order(
      if patch.id.Some? then patch.id.value else o.id,
      if patch.status.Some? then patch.status.value else o.status,
      if patch.version.Some? then patch.version else o.version,
      if patch.customerName.Some? then patch.customerName else o.customerName,
      if patch.products.Some? then patch.products else o.products)
  }

  /** `orders.map(o => o.id === id ? { ...o, ...patch } : o)`. */
  function MergeWhereId(orders: seq<Order>, id: Id, patch: OrderPatch): (r: seq<Order>)
    ensures |r| == |orders|
    ensures forall k :: 0 <= k < |r| && orders[k].id == id ==> r[k] == Merge(orders[k], patch)
    ensures forall k :: 0 <= k < |r| && orders[k].id != id ==> r[k] == orders[k]
  {
    if orders == [] then []
    else
      [if orders[0].id == id then Merge(orders[0], patch) else orders[0]]
      + MergeWhereId(orders[1..], id, patch)
  }

  // ---------------------------------------------------------------------
  // Plain reducers

  function ClearOrder(s: OrderSlice): OrderSlice {
    s.(order := None)
  }

  function ClearError(s: OrderSlice): OrderSlice {
    s.(error := None)
  }

  function SetIsDetailsOpen(s: OrderSlice, open: bool): OrderSlice {
    s.(isDetailsOpen := open)
  }

  function SetOrderOptimistically(s: OrderSlice, o: Order): OrderSlice {
    s.(order := Some(o))
  }

  /** Records the overlay entry (overwriting any earlier one for `id`) and
      shows the tentative status on the first listed order with `id` and on
      the current order when it has that id. */
  function UpdateOrderStatusOptimistically(s: OrderSlice, id: Id, status: string, previousStatus: Option<string>): (r: OrderSlice)
    ensures r.optimisticUpdates.Keys == s.optimisticUpdates.Keys + {id}
    ensures r.optimisticUpdates[id] == Overlay(status, previousStatus)
    ensures forall x :: x in s.optimisticUpdates && x != id ==> r.optimisticUpdates[x] == s.optimisticUpdates[x]
    ensures r.orders == SetFirstStatus(s.orders, id, status)
    ensures r.order == if s.order.Some? && s.order.value.id == id then Some(s.order.value.(status := status)) else s.order
    ensures r.(orders := s.orders, order := s.order, optimisticUpdates := s.optimisticUpdates) == s
  {
    s.(optimisticUpdates := s.optimisticUpdates[id := Overlay(status, previousStatus)],
       orders := SetFirstStatus(s.orders, id, status),
       order := SetCurrentStatus(s.order, id, status))
  }

  /** Puts `status` back on the first listed order with `id` and on the
      current order with `id`, and drops the overlay entry. */
  function RevertOrderStatusUpdate(s: OrderSlice, id: Id, status: string): (r: OrderSlice)
    ensures r.optimisticUpdates == s.optimisticUpdates - {id}
    ensures r.orders == SetFirstStatus(s.orders, id, status)
    ensures r.order == if s.order.Some? && s.order.value.id == id then Some(s.order.value.(status := status)) else s.order
    ensures r.(orders := s.orders, order := s.order, optimisticUpdates := s.optimisticUpdates) == s
  {
    s.(orders := SetFirstStatus(s.orders, id, status),
       order := SetCurrentStatus(s.order, id, status),
       optimisticUpdates := s.optimisticUpdates - {id})
  }

  // ---------------------------------------------------------------------
  // fetchOrders and fetchOrderById

  function FetchOrdersPending(s: OrderSlice): OrderSlice {
    s.(isLoading := true, error := None)
  }

  /** The refetched list replaces the old one; a pending overlay wins over the
      fetched status. */
  function FetchOrdersFulfilled(s: OrderSlice, payload: seq<Order>): (r: OrderSlice)
    ensures !r.isLoading
    ensures |r.orders| == |payload|
    ensures forall k :: 0 <= k < |payload| ==> r.orders[k].id == payload[k].id
    ensures forall k :: 0 <= k < |payload| && payload[k].id in s.optimisticUpdates ==>
      r.orders[k] == payload[k].(status := s.optimisticUpdates[payload[k].id].status)
    ensures forall k :: 0 <= k < |payload| && payload[k].id !in s.optimisticUpdates ==> r.orders[k] == payload[k]
    ensures r.(orders := s.orders, isLoading := s.isLoading) == s
  {
    s.(isLoading := false, orders := WithOverlays(payload, s.optimisticUpdates))
  }

  function FetchOrdersRejected(s: OrderSlice, payload: Option<string>): OrderSlice {
    s.(isLoading := false, error := payload)
  }

  /** The `condition` of fetchOrderById: the request is skipped when the
      current order already is the detailed order with that id. */
  predicate ShouldFetchOrderById(s: OrderSlice, id: Id) {
    !(s.order.Some? && s.order.value.id == id && s.order.value.products.Some?)
  }

  /** Loading is shown only when no order is displayed yet. */
  function FetchOrderByIdPending(s: OrderSlice): OrderSlice {
    s.(isLoading := if s.order.None? then true else s.isLoading, error := None)
  }

  /** The fetched order becomes the current one, with its pending overlay
      status if it has one. */
  function FetchOrderByIdFulfilled(s: OrderSlice, o: Order): (r: OrderSlice)
    ensures !r.isLoading && r.order.Some?
    ensures r.order.value.status == if o.id in s.optimisticUpdates then s.optimisticUpdates[o.id].status else o.status
    ensures r.order.value.(status := o.status) == o
    ensures r.(order := s.order, isLoading := s.isLoading) == s
  {
    s.(isLoading := false, order := Some(Overlaid(o, s.optimisticUpdates)))
  }

  function FetchOrderByIdRejected(s: OrderSlice, payload: Option<string>): OrderSlice {
    s.(isLoading := false, error := payload)
  }

  // ---------------------------------------------------------------------
  // updateOrderStatus

  /** The fulfilled payload `{ ...response.data, id }`: the requested id
      overrides whatever id the server sent. */
  function StatusUpdatePayload(id: Id, response: OrderPatch): (r: OrderPatch)
    ensures r.id == Some(id)
    ensures r.(id := response.id) == response
  {
    response.(id := Some(id))
  }

  /** The rejection payload: a 409 answer becomes a version conflict; any
      other failure carries the response body, or else the error message.
      Both carry the previous status so that the reducer can revert. */
  function StatusUpdateRejection(httpStatus: Option<int>, data: Option<string>, message: string, previousStatus: Option<string>): (r: RejectPayload)
    ensures r.previousStatus == previousStatus
    ensures httpStatus == Some(ConflictStatus) ==>
      r.status == Some(ConflictStatus) && r.message == Some(ConflictMessage) && r.error.None?
    ensures httpStatus != Some(ConflictStatus) ==>
      r.status.None? && r.message.None? && r.error == Some(OrElse(data, message))
  {
    if httpStatus == Some(ConflictStatus) then
      RejectPayload(Some(ConflictStatus), Some(ConflictMessage), None, previousStatus)
    else
      RejectPayload(None, None, Some(OrElse(data, message)), previousStatus)
  }

  function UpdateOrderStatusPending(s: OrderSlice, id: Id): (r: OrderSlice)
    ensures r.updatingOrderIds == s.updatingOrderIds + [id]
    ensures r.(updatingOrderIds := s.updatingOrderIds) == s
  {
    s.(updatingOrderIds := s.updatingOrderIds + [id])
  }

  /** Settles a successful update: the id leaves the updating list and the
      overlay, and the payload is merged into every order with that id. */
  function UpdateOrderStatusFulfilled(s: OrderSlice, id: Id, payload: Option<OrderPatch>): (r: OrderSlice)
    ensures id !in r.updatingOrderIds && IsSubseq(r.updatingOrderIds, s.updatingOrderIds)
    ensures forall x :: x != id ==> multiset(r.updatingOrderIds)[x] == multiset(s.updatingOrderIds)[x]
    ensures r.optimisticUpdates == s.optimisticUpdates - {id}
    ensures |r.orders| == |s.orders|
    ensures forall k :: 0 <= k < |s.orders| && s.orders[k].id != id ==> r.orders[k] == s.orders[k]
    ensures payload.Some? ==> forall k :: 0 <= k < |s.orders| && s.orders[k].id == id ==>
      r.orders[k] == Merge(s.orders[k], payload.value)
    ensures payload.None? ==> r.orders == s.orders && r.order == s.order
    ensures payload.Some? ==>
      r.order == (if s.order.Some? && s.order.value.id == id then Some(Merge(s.order.value, payload.value)) else s.order)
    ensures r.(orders := s.orders, order := s.order, updatingOrderIds := s.updatingOrderIds,
               optimisticUpdates := s.optimisticUpdates) == s
  {
    FilterIsSubseq(s.updatingOrderIds, IsNot(id));
    FilterCounts(s.updatingOrderIds, IsNot(id));
    var s1 := s.(updatingOrderIds := Filter(s.updatingOrderIds, IsNot(id)),
                 optimisticUpdates := s.optimisticUpdates - {id});
    if payload.Some? then
      s1.(orders := MergeWhereId(s.orders, id, payload.value),
          order := if s.order.Some? && s.order.value.id == id then Some(Merge(s.order.value, payload.value)) else s.order)
    else s1
  }

  /** Settles a failed update: the id leaves the updating list; only a
      payload with a truthy previous status reverts the order and drops the
      overlay; the error is the payload's, or a fixed message. */
  function UpdateOrderStatusRejected(s: OrderSlice, id: Id, payload: Option<RejectPayload>): (r: OrderSlice)
    ensures id !in r.updatingOrderIds && IsSubseq(r.updatingOrderIds, s.updatingOrderIds)
    ensures forall x :: x != id ==> multiset(r.updatingOrderIds)[x] == multiset(s.updatingOrderIds)[x]
    ensures payload.Some? && Truthy(payload.value.previousStatus) ==>
      && r.optimisticUpdates == s.optimisticUpdates - {id}
      && r.orders == SetFirstStatus(s.orders, id, payload.value.previousStatus.value)
      && r.order == SetCurrentStatus(s.order, id, payload.value.previousStatus.value)
    ensures !(payload.Some? && Truthy(payload.value.previousStatus)) ==>
      r.optimisticUpdates == s.optimisticUpdates && r.orders == s.orders && r.order == s.order
    ensures r.error == Some(if payload.Some? && Truthy(payload.value.error) then payload.value.error.value else UpdateFailedMessage)
    ensures r.(orders := s.orders, order := s.order, updatingOrderIds := s.updatingOrderIds,
               optimisticUpdates := s.optimisticUpdates, error := s.error) == s
  {
    FilterIsSubseq(s.updatingOrderIds, IsNot(id));
    FilterCounts(s.updatingOrderIds, IsNot(id));
    var s1 := s.(updatingOrderIds := Filter(s.updatingOrderIds, IsNot(id)));
    var s2 :=
      if payload.Some? && Truthy(payload.value.previousStatus) then
        var prev := payload.value.previousStatus.value;
        s1.(orders := SetFirstStatus(s.orders, id, prev),
            order := SetCurrentStatus(s.order, id, prev),
            optimisticUpdates := s.optimisticUpdates - {id})
      else s1;
    s2.(error := Some(if payload.Some? then OrElse(payload.value.error, UpdateFailedMessage) else UpdateFailedMessage))
  }

  // ---------------------------------------------------------------------
  // What the optimistic protocol guarantees

  /** The first listed order with `id` (if any) and the current order (if it
      has `id`) both show status `p`. */
  ghost predicate ShowsStatus(s: OrderSlice, id: Id, p: string) {
    && (forall k :: IsFirstWithId(s.orders, k, id) ==> s.orders[k].status == p)
    && (s.order.Some? && s.order.value.id == id ==> s.order.value.status == p)
  }

  /** Which position holds the first order with `id` depends only on the ids. */
  lemma FirstWithIdFollowsIds(xs: seq<Order>, ys: seq<Order>, id: Id)
    requires |xs| == |ys|
    requires forall k :: 0 <= k < |xs| ==> xs[k].id == ys[k].id
    ensures forall k :: IsFirstWithId(xs, k, id) <==> IsFirstWithId(ys, k, id)
  {
    forall k ensures IsFirstWithId(xs, k, id) <==> IsFirstWithId(ys, k, id) {
      if 0 <= k < |xs| {
        assert (forall j :: 0 <= j < k ==> xs[j].id != id) <==> (forall j :: 0 <= j < k ==> ys[j].id != id);
      }
    }
  }

  /** Applying a tentative status and then reverting it with the status the
      order showed before gives back exactly the earlier state, provided no
      overlay was pending for that id. */
  lemma OptimisticThenRevertRestores(s: OrderSlice, id: Id, tentative: string, previous: string)
    requires id !in s.optimisticUpdates
    requires ShowsStatus(s, id, previous)
    ensures RevertOrderStatusUpdate(UpdateOrderStatusOptimistically(s, id, tentative, Some(previous)), id, previous) == s
  {
    var s1 := UpdateOrderStatusOptimistically(s, id, tentative, Some(previous));
    var r := RevertOrderStatusUpdate(s1, id, previous);
    FirstWithIdFollowsIds(s.orders, s1.orders, id);
    assert r.orders == s.orders;
    assert r.optimisticUpdates == s.optimisticUpdates;
  }

  /** A second optimistic update on the same id supersedes the first entirely:
      the overlay entry is overwritten and the earlier previous status is lost. */
  lemma SecondOptimisticUpdateSupersedes(s: OrderSlice, id: Id, t1: string, p1: Option<string>, t2: string, p2: Option<string>)
    ensures UpdateOrderStatusOptimistically(UpdateOrderStatusOptimistically(s, id, t1, p1), id, t2, p2)
         == UpdateOrderStatusOptimistically(s, id, t2, p2)
  {
    var s1 := UpdateOrderStatusOptimistically(s, id, t1, p1);
    FirstWithIdFollowsIds(s.orders, s1.orders, id);
    assert UpdateOrderStatusOptimistically(s1, id, t2, p2).orders == UpdateOrderStatusOptimistically(s, id, t2, p2).orders;
  }

  /** Optimistic updates on two different ids commute. */
  lemma OptimisticUpdatesCommute(s: OrderSlice, a: Id, ta: string, pa: Option<string>, b: Id, tb: string, pb: Option<string>)
    requires a != b
    ensures UpdateOrderStatusOptimistically(UpdateOrderStatusOptimistically(s, a, ta, pa), b, tb, pb)
         == UpdateOrderStatusOptimistically(UpdateOrderStatusOptimistically(s, b, tb, pb), a, ta, pa)
  {
    var sa := UpdateOrderStatusOptimistically(s, a, ta, pa);
    var sb := UpdateOrderStatusOptimistically(s, b, tb, pb);
    var l := UpdateOrderStatusOptimistically(sa, b, tb, pb);
    var r := UpdateOrderStatusOptimistically(sb, a, ta, pa);
    SetFirstStatusCommutes(s.orders, a, ta, b, tb);
    assert l.orders == r.orders;
    assert l.order == r.order;
    OverlayWritesCommute(s.optimisticUpdates, a, Overlay(ta, pa), b, Overlay(tb, pb));
    assert l.optimisticUpdates == r.optimisticUpdates;
  }

  lemma OverlayWritesCommute(m: map<Id, Overlay>, a: Id, va: Overlay, b: Id, vb: Overlay)
    requires a != b
    ensures m[a := va][b := vb] == m[b := vb][a := va]
  {
  }

  /** Status writes on the first orders of two different ids commute. */
  lemma SetFirstStatusCommutes(orders: seq<Order>, a: Id, ta: string, b: Id, tb: string)
    requires a != b
    ensures SetFirstStatus(SetFirstStatus(orders, a, ta), b, tb) == SetFirstStatus(SetFirstStatus(orders, b, tb), a, ta)
  {
    var oa := SetFirstStatus(orders, a, ta);
    var ob := SetFirstStatus(orders, b, tb);
    FirstWithIdFollowsIds(orders, oa, b);
    FirstWithIdFollowsIds(orders, ob, a);
    var l := SetFirstStatus(oa, b, tb);
    var r := SetFirstStatus(ob, a, ta);
    forall k | 0 <= k < |orders| ensures l[k] == r[k] {
    }
  }

  /** Everything the slice holds about order `b`: its overlay entry, the
      listed orders and the current order carrying `b`, and how often `b` is
      marked as updating, is the same in `s` and `r`. */
  ghost predicate SameFor(s: OrderSlice, r: OrderSlice, b: Id) {
    && (b in r.optimisticUpdates <==> b in s.optimisticUpdates)
    && (b in s.optimisticUpdates ==> r.optimisticUpdates[b] == s.optimisticUpdates[b])
    && |r.orders| == |s.orders|
    && (forall k :: 0 <= k < |s.orders| && s.orders[k].id == b ==> r.orders[k] == s.orders[k])
    && (s.order.Some? && s.order.value.id == b ==> r.order == s.order)
    && multiset(r.updatingOrderIds)[b] == multiset(s.updatingOrderIds)[b]
  }

  /** No reducer of the status-update protocol applied to order `a` touches
      anything the slice holds about a different order `b`, whichever order
      the two orders' requests start and settle in. */
  lemma OtherOrdersAreUntouched(s: OrderSlice, a: Id, b: Id, status: string, previous: Option<string>,
                                patch: Option<OrderPatch>, rejection: Option<RejectPayload>)
    requires a != b
    ensures SameFor(s, UpdateOrderStatusOptimistically(s, a, status, previous), b)
    ensures SameFor(s, RevertOrderStatusUpdate(s, a, status), b)
    ensures SameFor(s, UpdateOrderStatusPending(s, a), b)
    ensures SameFor(s, UpdateOrderStatusFulfilled(s, a, patch), b)
    ensures SameFor(s, UpdateOrderStatusRejected(s, a, rejection), b)
  {
    OptimisticLeavesOthers(s, a, b, status, previous);
    RevertLeavesOthers(s, a, b, status);
    assert multiset(s.updatingOrderIds + [a])[b] == multiset(s.updatingOrderIds)[b];
    FulfilledLeavesOthers(s, a, b, patch);
    RejectedLeavesOthers(s, a, b, rejection);
  }

  lemma OptimisticLeavesOthers(s: OrderSlice, a: Id, b: Id, status: string, previous: Option<string>)
    requires a != b
    ensures SameFor(s, UpdateOrderStatusOptimistically(s, a, status, previous), b)
  {
  }

  lemma RevertLeavesOthers(s: OrderSlice, a: Id, b: Id, status: string)
    requires a != b
    ensures SameFor(s, RevertOrderStatusUpdate(s, a, status), b)
  {
  }

  lemma FulfilledLeavesOthers(s: OrderSlice, a: Id, b: Id, patch: Option<OrderPatch>)
    requires a != b
    ensures SameFor(s, UpdateOrderStatusFulfilled(s, a, patch), b)
  {
  }

  lemma RejectedLeavesOthers(s: OrderSlice, a: Id, b: Id, rejection: Option<RejectPayload>)
    requires a != b
    ensures SameFor(s, UpdateOrderStatusRejected(s, a, rejection), b)
  {
  }

  /** Spreading the same fields twice is spreading them once. */
  lemma MergeIsIdempotent(o: Order, patch: OrderPatch)
    ensures Merge(Merge(o, patch), patch) == Merge(o, patch)
  {
  }

  /** Merging a payload into the orders with `id` twice is merging it once,
      even when the payload changes the id of the orders it is merged into. */
  lemma MergeWhereIdIsIdempotent(orders: seq<Order>, id: Id, patch: OrderPatch)
    ensures MergeWhereId(MergeWhereId(orders, id, patch), id, patch) == MergeWhereId(orders, id, patch)
  {
    var r1 := MergeWhereId(orders, id, patch);
    var r2 := MergeWhereId(r1, id, patch);
    forall k | 0 <= k < |orders| ensures r2[k] == r1[k] {
      if orders[k].id == id {
        MergeIsIdempotent(orders[k], patch);
      }
    }
  }

  /** Settling the same successful update twice leaves the slice as settling
      it once. */
  lemma CommitIsIdempotent(s: OrderSlice, id: Id, payload: Option<OrderPatch>)
    ensures UpdateOrderStatusFulfilled(UpdateOrderStatusFulfilled(s, id, payload), id, payload)
         == UpdateOrderStatusFulfilled(s, id, payload)
  {
    var s1 := UpdateOrderStatusFulfilled(s, id, payload);
    var s2 := UpdateOrderStatusFulfilled(s1, id, payload);
    FilterIdempotent(s.updatingOrderIds, IsNot(id));
    assert s2.updatingOrderIds == s1.updatingOrderIds;
    assert s2.optimisticUpdates == s1.optimisticUpdates;
    if payload.Some? {
      MergeWhereIdIsIdempotent(s.orders, id, payload.value);
      assert s2.orders == s1.orders;
      if s.order.Some? && s.order.value.id == id {
        MergeIsIdempotent(s.order.value, payload.value);
      }
      assert s2.order == s1.order;
    }
  }

  /** Starting a request and settling it, either way, leaves the list of
      updating ids as it was without that id. */
  lemma {:induction false} PendingThenSettleClearsUpdating(s: OrderSlice, id: Id, patch: Option<OrderPatch>, rejection: Option<RejectPayload>)
    ensures UpdateOrderStatusFulfilled(UpdateOrderStatusPending(s, id), id, patch).updatingOrderIds
         == Filter(s.updatingOrderIds, IsNot(id))
    ensures UpdateOrderStatusRejected(UpdateOrderStatusPending(s, id), id, rejection).updatingOrderIds
         == Filter(s.updatingOrderIds, IsNot(id))
  {
    FilterConcat(s.updatingOrderIds, [id], IsNot(id));
    assert Filter([id], IsNot(id)) == [];
  }

  /** Two changes of one order in flight at once: when a second change of
      the same order is started before the first settles,
      the first request's rejection puts back the status from before BOTH
      changes and drops the overlay and the updating mark, although the second
      request is still in flight. */
  lemma StaleRejectionClobbersNewerUpdate(s: OrderSlice, id: Id, k: nat, t1: string, t2: string, rejection: RejectPayload)
    requires IsFirstWithId(s.orders, k, id)
    requires s.orders[k].status != ""
    requires rejection.previousStatus == Some(s.orders[k].status)
    ensures
      var p := s.orders[k].status;
      var s1 := UpdateOrderStatusPending(UpdateOrderStatusOptimistically(s, id, t1, Some(p)), id);
      var s2 := UpdateOrderStatusPending(UpdateOrderStatusOptimistically(s1, id, t2, Some(t1)), id);
      var s3 := UpdateOrderStatusRejected(s2, id, Some(rejection));
      && s2.orders[k].status == t2
      && s3.orders[k].status == p
      && id !in s3.optimisticUpdates
      && id !in s3.updatingOrderIds
  {
    var p := s.orders[k].status;
    var s0 := UpdateOrderStatusOptimistically(s, id, t1, Some(p));
    var s1 := UpdateOrderStatusPending(s0, id);
    var s1' := UpdateOrderStatusOptimistically(s1, id, t2, Some(t1));
    var s2 := UpdateOrderStatusPending(s1', id);
    FirstWithIdFollowsIds(s.orders, s0.orders, id);
    FirstWithIdFollowsIds(s.orders, s1'.orders, id);
    assert IsFirstWithId(s2.orders, k, id);
  }

  /** A change of an order whose status was the empty string is not reverted
      when it is rejected: the previous status it carries is falsy, so the
      order keeps the tentative status and its overlay entry stays. */
  lemma EmptyStatusIsNotReverted(s: OrderSlice, id: Id, k: nat, tentative: string, rejection: RejectPayload)
    requires IsFirstWithId(s.orders, k, id)
    requires s.orders[k].status == ""
    requires rejection.previousStatus == Some(s.orders[k].status)
    ensures
      var s1 := UpdateOrderStatusPending(UpdateOrderStatusOptimistically(s, id, tentative, Some(s.orders[k].status)), id);
      var s2 := UpdateOrderStatusRejected(s1, id, Some(rejection));
      && s2.orders[k].status == tentative
      && s2.optimisticUpdates[id] == Overlay(tentative, Some(""))
      && id !in s2.updatingOrderIds
  {
  }

  /** A 409 rejection carries no `error` field, so the slice's error becomes
      the fixed failure message rather than the conflict message. */
  lemma ConflictRejectionStoresFixedMessage(s: OrderSlice, id: Id, data: Option<string>, message: string, previous: Option<string>)
    ensures UpdateOrderStatusRejected(s, id, Some(StatusUpdateRejection(Some(ConflictStatus), data, message, previous))).error
         == Some(UpdateFailedMessage)
  {
  }

  /** The detailed order, once fetched, is not fetched again. An order taken
      over from the list stops the fetch exactly when it already carries
      products; one without products does not. */
  lemma FetchConditionAfterDetails(s: OrderSlice, o: Order)
    ensures o.products.Some? ==> !ShouldFetchOrderById(FetchOrderByIdFulfilled(s, o), o.id)
    ensures o.products.Some? ==> !ShouldFetchOrderById(SetOrderOptimistically(s, o), o.id)
    ensures o.products.None? ==> ShouldFetchOrderById(SetOrderOptimistically(s, o), o.id)
  {
  }
}
