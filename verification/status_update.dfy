/** Changing the status of a stored order. Both routes are meant for
    administrators: `updateOrderStatus` finds the order by its human-readable
    order id, `updateOrderStatusAdmin` by its document id. Both check the new
    status against the whitelist first and then replace `order_status`. */
module StatusUpdate {
  import opened Wrappers
  import opened Orders

  /** A stored order with its document id. */
  datatype Document = Document(id: string, order: Order)

  datatype StatusError = InvalidStatus | OrderNotFound

  /** How a route picks the order to update. */
  datatype Selector = ByOrderId(orderId: string) | ByDocumentId(id: string)

  predicate Selects(sel: Selector, d: Document) {
    match sel
    case ByOrderId(o) => d.order.orderId == o
    case ByDocumentId(i) => d.id == i
  }

  /** The store after an update and what the route answers. */
  datatype UpdateOutcome = UpdateOutcome(store: seq<Document>, result: Result<Order, StatusError>)

  /** Position of the first stored order the selector picks. */
  function FindFirst(store: seq<Document>, sel: Selector): (r: Option<nat>)
    ensures r.Some? ==>
      && r.value < |store|
      && Selects(sel, store[r.value])
      && forall j :: 0 <= j < r.value ==> !Selects(sel, store[j])
    ensures r.None? ==> forall j :: 0 <= j < |store| ==> !Selects(sel, store[j])
  {
    if |store| == 0 then None
    else if Selects(sel, store[0]) then Some(0)
    else
      match FindFirst(store[1..], sel)
      case None => None
      case Some(k) => Some(k + 1)
  }

  /** `after` is `before` with the order at `k` moved to `status` and
      nothing else changed. */
  predicate OnlyStatusChanged(before: seq<Document>, after: seq<Document>, k: int, status: string) {
    && |after| == |before|
    && 0 <= k < |before|
    && after[k].id == before[k].id
    && after[k].order.orderStatus == status
    && after[k].order.(orderStatus := before[k].order.orderStatus) == before[k].order
    && forall j :: 0 <= j < |before| && j != k ==> after[j] == before[j]
  }

  /** The shared logic of both routes. */
  function UpdateStatus(store: seq<Document>, sel: Selector, status: Option<string>): (u: UpdateOutcome)
    ensures !IsValidStatus(status) ==> u == UpdateOutcome(store, Failure(InvalidStatus))
    ensures IsValidStatus(status) && (forall j :: 0 <= j < |store| ==> !Selects(sel, store[j])) ==>
              u == UpdateOutcome(store, Failure(OrderNotFound))
    ensures u.result.Success? <==>
              IsValidStatus(status) && exists k :: 0 <= k < |store| && Selects(sel, store[k])
    ensures u.result.Success? ==>
              exists k :: && OnlyStatusChanged(store, u.store, k, status.value)
                          && Selects(sel, store[k])
                          && (forall j :: 0 <= j < k ==> !Selects(sel, store[j]))
                          && u.result.value == u.store[k].order
  {
    if !IsValidStatus(status) then UpdateOutcome(store, Failure(InvalidStatus))
    else match FindFirst(store, sel)
      case None => UpdateOutcome(store, Failure(OrderNotFound))
      case Some(k) =>
        var updated := Document(store[k].id, store[k].order.(orderStatus := status.value));
        var after := store[k := updated];
        assert OnlyStatusChanged(store, after, k, status.value);
        UpdateOutcome(after, Success(updated.order))
  }

  /** `updateOrderStatus`: the order picked by its order id. */
  function UpdateOrderStatus(store: seq<Document>, orderId: string, status: Option<string>): (u: UpdateOutcome)
    ensures u.result.Success? <==>
              IsValidStatus(status) && exists k :: 0 <= k < |store| && store[k].order.orderId == orderId
    ensures u.result.Success? ==>
              u.result.value.orderId == orderId && u.result.value.orderStatus == status.value
    ensures u.result.Success? ==>
              exists k :: OnlyStatusChanged(store, u.store, k, status.value)
                          && store[k].order.orderId == orderId
                          && (forall j :: 0 <= j < k ==> store[j].order.orderId != orderId)
                          && u.result.value == u.store[k].order
    ensures u.result.Failure? ==> u.store == store
    ensures !IsValidStatus(status) ==> u.result == Failure(InvalidStatus)
    ensures IsValidStatus(status) && u.result.Failure? ==> u.result == Failure(OrderNotFound)
  {
    UpdateStatus(store, ByOrderId(orderId), status)
  }

  /** `updateOrderStatusAdmin`: the order picked by its document id. */
  function UpdateOrderStatusAdmin(store: seq<Document>, id: string, status: Option<string>): (u: UpdateOutcome)
    ensures u.result.Success? <==>
              IsValidStatus(status) && exists k :: 0 <= k < |store| && store[k].id == id
    ensures |u.store| == |store|
    ensures u.result.Success? ==>
              exists k :: 0 <= k < |store| && u.store[k].id == id && u.store[k].order == u.result.value
                          && u.result.value.orderStatus == status.value
    ensures u.result.Success? ==>
              exists k :: OnlyStatusChanged(store, u.store, k, status.value)
                          && store[k].id == id
                          && u.result.value == u.store[k].order
    ensures u.result.Failure? ==> u.store == store
    ensures !IsValidStatus(status) ==> u.result == Failure(InvalidStatus)
    ensures IsValidStatus(status) && u.result.Failure? ==> u.result == Failure(OrderNotFound)
  {
    UpdateStatus(store, ByDocumentId(id), status)
  }

  /** Neither selector looks at the status, so an update never changes which
      order a selector picks. */
  lemma FindFirstIgnoresStatus(before: seq<Document>, after: seq<Document>, k: int, status: string, sel: Selector)
    requires OnlyStatusChanged(before, after, k, status)
    ensures FindFirst(after, sel) == FindFirst(before, sel)
  {
  }

  /** Repeating an update leaves the store as the first update left it. */
  lemma UpdateIdempotent(store: seq<Document>, sel: Selector, status: Option<string>)
    ensures var once := UpdateStatus(store, sel, status);
            UpdateStatus(once.store, sel, status) == once
  {
  }

  /** No transition graph: any valid status can follow any other. */
  lemma AnyTransitionAllowed(store: seq<Document>, sel: Selector, s1: string, s2: string)
    requires IsValidStatus(Some(s1)) && IsValidStatus(Some(s2))
    requires exists k :: 0 <= k < |store| && Selects(sel, store[k])
    ensures var u := UpdateStatus(UpdateStatus(store, sel, Some(s1)).store, sel, Some(s2));
            u.result.Success? && u.result.value.orderStatus == s2
  {
  }
}
