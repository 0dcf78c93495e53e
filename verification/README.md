# Order assembly and order-status model

This project models the order-creation workflow of a small e-commerce
backend, together with the order-status update routes. When a customer places
an order, `createOrder` does four things in sequence:

1. It checks that a delivery address was sent.
2. It checks that the cart is not empty.
3. It walks the cart lines in order. Each line must resolve to a product, and
   the quantity must not exceed that product's stock. For each line it picks
   the retail or the wholesale price: wholesale applies when the product has
   wholesale enabled and the quantity reaches its minimum order quantity (MOQ).
4. It adds up the subtotal and the savings, adds shipping (free when the
   subtotal is over 50.00, otherwise 5.00), and builds an order whose order
   status and payment status both start as `pending`.

The two status routes, both meant for administrators, accept only one of six
statuses. They then set `order_status` on the order they look up.

Modules:

- `Wrappers`: `Option` and `Result`.
- `Catalog`: products, cart lines, order items, and the per-line pricing rule.
- `Orders`: the order record and the status whitelist.
- `OrderIds`: how the `ORD-XXXXXXXX` order id is formed from a UUID.
- `Checkout`: validation, totals and `BuildOrder`. It also has `CreateOrder`,
  the loop form of the same computation, proved to agree with `BuildOrder`.
- `StatusUpdate`: the two status routes over a store of order documents.

Modelling choices:

- Money is an integer count of cents. The free-shipping threshold of 50.00 is
  `5000` and the flat fee of 5.00 is `500`.
- The database reads become inputs. The cart is a sequence of lines, and each
  line carries its product, or `None` when the product no longer exists.
- The random UUID behind the order id is a parameter.
- Absent request fields are `None`. A delivery address counts as missing when
  it is `None` or the empty string, as JavaScript's `!delivery_address` would
  treat a string.
- The default payment method is `"cod"`, as the code writes it.
- `moq` is optional. An absent or zero MOQ falls back to 1, as `moq || 1` does.
- `updateOrderStatus` finds its order by the `orderId` field and takes the
  first match. `updateOrderStatusAdmin` finds its order by document id.

## Model

| member | source | states |
|---|---|---|
| Catalog.PriceLine | controllers/orderController.js:54-70 | the item snapshots the product (id, name, first image url or "", quantity); its `pricingTier` is "wholesale" exactly when wholesale is enabled and quantity reaches the MOQ (absent or zero MOQ counts as 1, quantity equal to the MOQ qualifies) and "retail" otherwise; its unit price is the wholesale price on the wholesale tier and the retail price otherwise |
| Catalog.TierTag | controllers/orderController.js:69 | the `pricingTier` tag stored on an item is "wholesale" exactly for the wholesale tier and "retail" exactly for the retail tier |
| Catalog.LineSavingsComplement | controllers/orderController.js:56-58 | for one line, charged amount plus savings equals quantity times the retail price; retail lines save nothing |
| Catalog.WholesaleMonotone | controllers/orderController.js:55 | a quantity that qualifies for wholesale keeps qualifying when it grows |
| Orders.ValidStatusExactly | controllers/orderController.js:319-321 | the status whitelist accepts exactly pending, confirmed, processing, shipped, delivered and cancelled; a missing status is rejected |
| OrderIds.BeforeFirstDash | controllers/orderController.js:78 | `split('-')[0]`: the result is a dash-free prefix of the input, followed in the input by a dash or the end |
| OrderIds.ToUpper | controllers/orderController.js:78 | upper-casing keeps the length and maps each character through the ASCII upper-case rule |
| OrderIds.FormatOrderId | controllers/orderController.js:78 | the id is "ORD-" followed by the first UUID group with each character upper-cased, so it is four characters longer than that group and after the prefix holds no dash and no lower-case letter |
| OrderIds.CanonicalOrderId | controllers/orderController.js:78 | for a UUID starting with eight hex digits and a dash, the first group is those eight characters and the id is 12 characters: the prefix, then those characters upper-cased, all upper-case hex digits |
| OrderIds.SameHeadSameId | controllers/orderController.js:78 | two canonical UUIDs that share their first eight characters give the same order id, whatever follows |
| OrderIds.HeadOfJoin | controllers/orderController.js:78 | the first group of `a-b` is `a` when `a` has no dash |
| OrderIds.DistinctUuidsMayCollide | controllers/orderController.js:78 | two distinct lower-case version-4 UUIDs give the same order id |
| Checkout.LineError | controllers/orderController.js:39-52 | a failing line without a product is reported as product-not-found with the cart line id; a failing line with a product is reported as insufficient stock with the available stock and the product name |
| Checkout.ValidateCart | controllers/orderController.js:36-52 | validation passes exactly when every line has a product and a quantity at most its stock (quantity equal to stock passes); otherwise it reports the error of a first failing line |
| Checkout.FirstBadLineReported | controllers/orderController.js:36-52 | with an address given, the order fails with the error of the first failing line in cart order, whatever the later lines hold |
| Checkout.Items | controllers/orderController.js:36-71 | one item per cart line, in cart order, each the priced snapshot of its line |
| Checkout.ItemsSnoc | controllers/orderController.js:63-70 | adding a valid line to the cart appends exactly that line's snapshot to the items |
| Checkout.SubtotalAppend | controllers/orderController.js:57-60 | the running subtotal over two runs of items is the sum of their subtotals |
| Checkout.TotalSavingsSnoc | controllers/orderController.js:58-61 | the running savings grow by exactly the savings of each line added |
| Checkout.SavingsAreDiscount | controllers/orderController.js:57-61 | over the whole cart, subtotal plus total savings equals the retail value of the cart |
| Checkout.RetailCartSavesNothing | controllers/orderController.js:58 | a cart with no wholesale line has zero savings and is charged its retail value |
| Checkout.Shipping | controllers/orderController.js:74 | shipping is 0 exactly when the subtotal is strictly over 50.00, and 5.00 otherwise, so a subtotal of exactly 50.00 pays 5.00 |
| Checkout.BuildOrder | controllers/orderController.js:8-118 | a missing address fails before the cart is consulted; an empty cart fails next; success happens exactly when the address is given, the cart is non-empty and every line is valid; otherwise the error is the one of a first failing line; a success satisfies every clause of the assembly contract (items, subtotal, savings, shipping, total, pending statuses, defaults, order id) |
| Checkout.PriceCartLine | controllers/orderController.js:54-58 | the per-line step yields that line's priced snapshot, its charged amount (unit price times quantity) and its savings |
| Checkout.TallyCart | controllers/orderController.js:31-71 | the single pass with running subtotal, running savings and early return fails with the first bad line's error when validation fails, and otherwise yields the items, their subtotal and the cart's savings |
| Checkout.CreateOrder | controllers/orderController.js:8-94 | the handler in its own order of steps (address, empty cart, the pass over the cart, shipping, order record) gives the same result as BuildOrder on every input |
| Checkout.AssemblyDeterminesOrder | controllers/orderController.js:55-94 | the assembly contract fixes the order completely: two orders that meet it for the same inputs are equal |
| Checkout.WorkedExample | controllers/orderController.js:55-75 | 2 x 10.00 retail plus 3 x 20.00 at a wholesale price of 15.00 with MOQ 3 gives subtotal 65.00, savings 15.00, free shipping, total 65.00 and payment method "cod" |
| Checkout.NewOrderStatusIsValid | controllers/orderController.js:92-93 | a new order's status is accepted by the status whitelist and its payment status is "pending" |
| StatusUpdate.FindFirst | controllers/orderController.js:328-332 | the lookup returns the first stored order the selector picks, or nothing when none does |
| StatusUpdate.UpdateStatus | controllers/orderController.js:319-339 | an invalid status is rejected before the lookup, with the store unchanged; a missing order gives not-found, with the store unchanged; otherwise only the first matching order's status changes and that order is returned |
| StatusUpdate.UpdateOrderStatus | controllers/orderController.js:314-354 | succeeds exactly for a whitelisted status and an existing order id; on success the first order with that id gets the new status, nothing else in the store changes, and that order is returned; an invalid status gives invalid-status, otherwise a failure is not-found; a failure leaves the store unchanged |
| StatusUpdate.UpdateOrderStatusAdmin | controllers/orderController.js:672-714 | succeeds exactly for a whitelisted status and an existing document id; on success that document gets the new status, nothing else in the store changes, and its order is returned; an invalid status gives invalid-status, otherwise a failure is not-found; a failure leaves the store unchanged |
| StatusUpdate.FindFirstIgnoresStatus | controllers/orderController.js:328-332 | changing an order's status never changes which order a lookup finds |
| StatusUpdate.UpdateIdempotent | controllers/orderController.js:328-332 | repeating the same status update leaves the store and the answer as the first update left them |
| StatusUpdate.AnyTransitionAllowed | controllers/orderController.js:677-690 | any whitelisted status may follow any other; there is no transition graph |

## Left out

- Database I/O is not modelled: reading the cart with `populate`, `order.save`, `CartProduct.deleteMany`, and populating the response. So the model does not cover clearing the cart after success, or a store failure answering 500.
- HTTP status codes and message texts are not modelled. Every `OrderError` and `StatusError` stands for a 400 or 404 answer.
- `getUserOrders`, `getOrder`, `getAllOrders`, `deleteOrder` and `getOrderStats` are left out. They only build queries and call the store.
- The commented-out duplicate handlers (lines 125-246 and 359-604) are left out.
- UUID generation is left out. It is a random source, so the UUID is a parameter.
- `toUpperCase` is modelled for ASCII letters only. UUIDs are hexadecimal, so this loses nothing for real ids.
- JavaScript floating-point money is not modelled. Amounts are exact integer cents, so there is no rounding drift.
- Non-string JSON values for `delivery_address`, `payment_method`, `notes` or `order_status` are not modelled. Examples are `0`, `false` and `null`.
- A product without an `images` array is left out. The source would throw and answer 500.
- The race between the stock check and the order write is left out. The model is sequential.
- StatusUpdate.UpdateStatus: the store is modelled as if `order_status` were a path of the order schema. `models/orderModel.js` declares no such path, so Mongoose's default strict mode would drop it from the update.
- StatusUpdate.UpdateStatus: the `updatedAt` timestamp that `timestamps: true` changes on every update is not modelled.
- StatusUpdate.UpdateOrderStatusAdmin: a malformed document id makes the store raise a cast error and the route answer 500. The model answers not-found instead.
- The order schema in `models/orderModel.js` is left out. It does not declare every field `createOrder` sets, so what is actually persisted may differ from the computed order.
