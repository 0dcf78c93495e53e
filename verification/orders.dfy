/** The order record and its status vocabulary. */
module Orders {
  import opened Wrappers
  import opened Catalog

  /** The fields `createOrder` sets on a new order (money in cents). */
  datatype Order = Order(
    userId: string,
    orderId: string,
    items: seq<OrderItem>,
    deliveryAddress: string,
    subtotal: int,
    shipping: int,
    total: int,
    totalSavings: int,
    paymentMethod: string,
    notes: string,
    orderStatus: string,
    paymentStatus: string)

  const Pending: string := "pending"

  /** The statuses an order may be moved to. */
  const ValidStatuses: seq<string> :=
    ["pending", "confirmed", "processing", "shipped", "delivered", "cancelled"]

  /** `validStatuses.includes(order_status)`: a missing field is never valid. */
  predicate IsValidStatus(status: Option<string>) {
    status.Some? && status.value in ValidStatuses
  }

  /** The whitelist accepts exactly the six named statuses. */
  lemma ValidStatusExactly(status: Option<string>)
    ensures IsValidStatus(status) <==>
      status in {Some("pending"), Some("confirmed"), Some("processing"),
                 Some("shipped"), Some("delivered"), Some("cancelled")}
  {
  }
}
