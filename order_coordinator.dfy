/** The order page's hook: what it dispatches when the user opens an order
    or changes its status, and how it classifies a failed status change.
    Dispatches are recorded as a list of actions in the order they are made;
    the asynchronous outcome of the status request is an input. */
module UseOrder {
  import opened Js
  import opened Lists
  import opened Text
  import opened OrderReducers

  /** The arguments the optimistic action and the request both carry. */
  datatype StatusChange = StatusChange(id: Id, status: string, previousStatus: string, version: int)

  datatype Action =
    | SetOrderOptimistically(order: Order)
    | SetIsDetailsOpen(open: bool)
    | FetchOrderById(id: Id)
    | FetchOrders
    | UpdateOrderStatusOptimistically(change: StatusChange)
    | UpdateOrderStatus(change: StatusChange)

  /** What the `.catch` handler receives: the rejection payload, of which it
      reads `status` and `message`. */
  datatype CaughtError = CaughtError(status: Option<int>, message: Option<string>)

  /** How the status request settled. */
  datatype Settlement = Succeeded | Failed(error: CaughtError)

  /** The notification raised once the request settles. */
  datatype Notice = Updated | Conflict | UpdateFailed

  /** The actions dispatched, in order, and the notification raised, if any. */
  datatype Dispatched = Dispatched(actions: seq<Action>, notice: Option<Notice>)

  /** The error `.unwrap()` throws for a status request rejected with `p`. */
  function Caught(p: RejectPayload): CaughtError {
    CaughtError(p.status, p.message)
  }

  /** `order.version || 1`: a missing or zero version is sent as 1. */
  function CapturedVersion(o: Order): (v: int)
    ensures v != 0
    ensures o.version.Some? && o.version.value != 0 ==> v == o.version.value
    ensures o.version.None? || o.version == Some(0) ==> v == 1
  {
    if o.version.Some? && o.version.value != 0 then o.version.value else 1
  }

  /** A failure is a version conflict when it is a 409 or its message
      mentions "version"; a conflict refreshes the list. */
  predicate IsConflict(e: CaughtError): (r: bool)
    ensures e.status == Some(ConflictStatus) ==> r
    ensures e.status != Some(ConflictStatus) ==>
      (r <==> e.message.Some? && exists i: nat :: i <= |e.message.value| && OccursAt(e.message.value, "version", i))
  {
    e.status == Some(ConflictStatus) || (e.message.Some? && Includes(e.message.value, "version"))
  }

  /** `handleStatusChange(orderId, newStatus)` against the listed `orders`. */
  function HandleStatusChange(orders: seq<Order>, orderId: Id, newStatus: string, outcome: Settlement): (r: Dispatched)
    ensures r.actions == [] <==> forall k :: 0 <= k < |orders| ==> orders[k].id != orderId
    ensures r.actions == [] ==> r.notice.None?
    ensures forall k :: IsFirstWithId(orders, k, orderId) ==>
      var change := StatusChange(orderId, newStatus, orders[k].status, CapturedVersion(orders[k]));
      && |r.actions| >= 2
      && r.actions[0] == UpdateOrderStatusOptimistically(change)
      && r.actions[1] == UpdateOrderStatus(change)
    ensures forall k :: 2 <= k < |r.actions| ==> r.actions[k] == FetchOrders
    ensures |r.actions| <= 3
    ensures FetchOrders in r.actions <==> r.actions != [] && (outcome.Succeeded? || IsConflict(outcome.error))
    ensures r.actions != [] ==> r.notice == Some(
      if outcome.Succeeded? then Updated else if IsConflict(outcome.error) then Conflict else UpdateFailed)
  {
    var i := FindIndex(orders, HasId(orderId));
    if i == -1 then Dispatched([], None)
    else
      var o := orders[i];
      var change := StatusChange(orderId, newStatus, o.status, CapturedVersion(o));
      var started := [UpdateOrderStatusOptimistically(change), UpdateOrderStatus(change)];
      match outcome
      case Succeeded => Dispatched(started + [FetchOrders], Some(Updated))
      case Failed(e) =>
        if IsConflict(e) then Dispatched(started + [FetchOrders], Some(Conflict))
        else Dispatched(started, Some(UpdateFailed))
  }

  /** `handleViewOrderDetails(orderId)`: show the listed order at once when
      there is one, and always dispatch the fetch of the full order (whose
      condition may then skip the request). */
  function HandleViewOrderDetails(orders: seq<Order>, orderId: Id): (r: seq<Action>)
    ensures |r| >= 1 && r[|r| - 1] == FetchOrderById(orderId)
    ensures (forall k :: 0 <= k < |orders| ==> orders[k].id != orderId) ==> r == [FetchOrderById(orderId)]
    ensures forall k :: IsFirstWithId(orders, k, orderId) ==>
      r == [SetOrderOptimistically(orders[k]), SetIsDetailsOpen(true), FetchOrderById(orderId)]
  {
    var i := FindIndex(orders, HasId(orderId));
    if i == -1 then [FetchOrderById(orderId)]
    else [SetOrderOptimistically(orders[i]), SetIsDetailsOpen(true), FetchOrderById(orderId)]
  }

  /** For the payloads the status request is actually rejected with, the
      hook sees a conflict exactly when the server answered 409: the other
      payload has no `message`, so the "version" test never fires for it. */
  lemma ConflictExactlyOn409(httpStatus: Option<int>, data: Option<string>, message: string, previous: Option<string>)
    ensures IsConflict(Caught(StatusUpdateRejection(httpStatus, data, message, previous))) <==> httpStatus == Some(ConflictStatus)
  {
  }

  /** The conflict message says "Version" with a capital letter, so the
      message test alone does not recognise it: only the 409 status does. */
  lemma ConflictMessageIsNotMatched()
    ensures !IsConflict(CaughtError(None, Some(ConflictMessage)))
  {
    assert forall k :: 0 <= k < |ConflictMessage| ==> ConflictMessage[k] != "version"[0];
    ExcludedByFirstChar(ConflictMessage, "version");
  }

  /** The state after the hook's optimistic action and the request's pending
      action for the first listed order with `orderId`. */
  function Started(s: OrderSlice, k: nat, newStatus: string): OrderSlice
    requires k < |s.orders|
  {
    var id := s.orders[k].id;
    UpdateOrderStatusPending(OrderReducers.UpdateOrderStatusOptimistically(s, id, newStatus, Some(s.orders[k].status)), id)
  }

  /** A status change that succeeds: the new status shows at once, and once
      the server's answer is merged the order is the shown order spread with
      the server's fields (a bumped version among them) under its own id, and no overlay or updating
      mark remains; the hook then refreshes the list. */
  lemma StatusChangeCommits(s: OrderSlice, k: nat, newStatus: string, response: OrderPatch)
    requires k < |s.orders| && IsFirstWithId(s.orders, k, s.orders[k].id)
    ensures
      var id := s.orders[k].id;
      var s1 := Started(s, k, newStatus);
      var s2 := UpdateOrderStatusFulfilled(s1, id, Some(StatusUpdatePayload(id, response)));
      && s1.orders[k].status == newStatus
      && id in s1.optimisticUpdates && id in s1.updatingOrderIds
      && s2.orders[k] == Merge(s.orders[k].(status := newStatus), StatusUpdatePayload(id, response))
      && s2.orders[k].id == id
      && (response.status.Some? ==> s2.orders[k].status == response.status.value)
      && (response.status.None? ==> s2.orders[k].status == newStatus)
      && (response.version.Some? ==> s2.orders[k].version == response.version)
      && id !in s2.optimisticUpdates && id !in s2.updatingOrderIds
      && HandleStatusChange(s.orders, id, newStatus, Succeeded).actions
         == [UpdateOrderStatusOptimistically(StatusChange(id, newStatus, s.orders[k].status, CapturedVersion(s.orders[k]))),
             UpdateOrderStatus(StatusChange(id, newStatus, s.orders[k].status, CapturedVersion(s.orders[k]))),
             FetchOrders]
  {
    var id := s.orders[k].id;
    var s0 := OrderReducers.UpdateOrderStatusOptimistically(s, id, newStatus, Some(s.orders[k].status));
    FirstWithIdFollowsIds(s.orders, s0.orders, id);
  }

  /** A status change the server rejects: provided the order had a non-empty
      status, the listed order is exactly as before (status back, version
      untouched), no overlay or updating mark remains, and the hook refreshes
      the list exactly when the server answered 409. */
  lemma StatusChangeRejectedReverts(s: OrderSlice, k: nat, newStatus: string, httpStatus: Option<int>, data: Option<string>, message: string)
    requires k < |s.orders| && IsFirstWithId(s.orders, k, s.orders[k].id)
    requires s.orders[k].status != ""
    ensures
      var id := s.orders[k].id;
      var p := StatusUpdateRejection(httpStatus, data, message, Some(s.orders[k].status));
      var s2 := UpdateOrderStatusRejected(Started(s, k, newStatus), id, Some(p));
      var d := HandleStatusChange(s.orders, id, newStatus, Failed(Caught(p)));
      && s2.orders[k] == s.orders[k]
      && id !in s2.optimisticUpdates && id !in s2.updatingOrderIds
      && (FetchOrders in d.actions <==> httpStatus == Some(ConflictStatus))
      && d.notice == Some(if httpStatus == Some(ConflictStatus) then Conflict else UpdateFailed)
  {
    var id := s.orders[k].id;
    var s0 := OrderReducers.UpdateOrderStatusOptimistically(s, id, newStatus, Some(s.orders[k].status));
    FirstWithIdFollowsIds(s.orders, s0.orders, id);
    ConflictExactlyOn409(httpStatus, data, message, Some(s.orders[k].status));
  }
}
