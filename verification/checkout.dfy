/** Order assembly: validation of the request and the cart, per-line
    pricing, order totals and the initial status of a new order.
    The cart arrives already read from the store, each line's product
    resolved (or missing); the UUID for the order id arrives as a parameter.
    Money is counted in integer cents. */
module Checkout {
  import opened Wrappers
  import opened Catalog
  import opened Orders
  import opened OrderIds

  /** The request body and the authenticated user. Absent JSON fields are None. */
  datatype Request = Request(
    userId: string,
    deliveryAddress: Option<string>,
    paymentMethod: Option<string>,
    notes: Option<string>)

  /** The reasons order creation answers 400. */
  datatype OrderError =
    | AddressRequired
    | CartEmpty
    | ProductNotFound(cartLineId: string)
    | InsufficientStock(available: int, productName: string)

  /** Orders whose subtotal is strictly over 50.00 ship free. */
  const FreeShippingOver: int := 5000
  /** Flat shipping fee of 5.00 otherwise. */
  const FlatShipping: int := 500
  const DefaultPaymentMethod: string := "cod"
  const DefaultNotes: string := ""

  /** `!delivery_address` is false: present and not the empty string. */
  predicate AddressGiven(address: Option<string>) {
    address.Some? && address.value != ""
  }

  /** A line passes validation when its product exists and the requested
      quantity does not exceed the stock. */
  predicate LineOk(line: CartLine) {
    line.product.Some? && line.quantity <= line.product.value.stock
  }

  predicate AllLinesOk(cart: seq<CartLine>) {
    forall i :: 0 <= i < |cart| ==> LineOk(cart[i])
  }

  /** Dropping the first line of a valid cart leaves a valid cart. */
  lemma TailLinesOk(cart: seq<CartLine>)
    requires |cart| > 0 && AllLinesOk(cart)
    ensures AllLinesOk(cart[1..])
    ensures forall i :: 0 <= i < |cart| - 1 ==> cart[1..][i] == cart[i + 1]
  {
  }

  /** `k` is the first line in cart order that fails validation. */
  predicate FirstBadLine(cart: seq<CartLine>, k: int) {
    && 0 <= k < |cart|
    && !LineOk(cart[k])
    && forall j :: 0 <= j < k ==> LineOk(cart[j])
  }

  /** The error a failing line is reported with: a missing product is
      checked before the stock. */
  function LineError(line: CartLine): (e: OrderError)
    requires !LineOk(line)
    ensures e.ProductNotFound? <==> line.product.None?
    ensures e.ProductNotFound? ==> e.cartLineId == line.id
    ensures line.product.Some? ==>
      e == InsufficientStock(line.product.value.stock, line.product.value.name)
    ensures e.InsufficientStock? ==>
      line.quantity > line.product.value.stock
      && e.available == line.product.value.stock
      && e.productName == line.product.value.name
  {
    match line.product
    case None => ProductNotFound(line.id)
    case Some(p) => InsufficientStock(p.stock, p.name)
  }

  /** Validates the lines in cart order and stops at the first failure. */
  function ValidateCart(cart: seq<CartLine>): (r: Option<OrderError>)
    ensures r.None? <==> AllLinesOk(cart)
    ensures r.Some? ==> exists k :: FirstBadLine(cart, k) && r.value == LineError(cart[k])
  {
    if |cart| == 0 then None
    else if !LineOk(cart[0]) then
      assert FirstBadLine(cart, 0);
      Some(LineError(cart[0]))
    else
      var rest := ValidateCart(cart[1..]);
      if rest.Some? then
        var k :| FirstBadLine(cart[1..], k) && rest.value == LineError(cart[1..][k]);
        assert FirstBadLine(cart, k + 1);
        rest
      else
        assert forall i :: 1 <= i < |cart| ==> cart[i] == cart[1..][i - 1];
        rest
  }

  /** With an address and a non-empty cart, the error reported is the one
      of the first bad line in cart order, whatever follows it. */
  lemma FirstBadLineReported(req: Request, cart: seq<CartLine>, uuid: string, k: int)
    requires AddressGiven(req.deliveryAddress)
    requires FirstBadLine(cart, k)
    ensures ValidateCart(cart) == Some(LineError(cart[k]))
    ensures BuildOrder(req, cart, uuid) == Failure(LineError(cart[k]))
  {
  }

  /** One priced item per cart line, in cart order. */
  function Items(cart: seq<CartLine>): (items: seq<OrderItem>)
    requires AllLinesOk(cart)
    ensures |items| == |cart|
    ensures forall i :: 0 <= i < |cart| ==> items[i] == PriceLine(cart[i])
  {
    if |cart| == 0 then []
    else
      TailLinesOk(cart);
      [PriceLine(cart[0])] + Items(cart[1..])
  }

  /** Sum of the charged line totals. */
  function Subtotal(items: seq<OrderItem>): int {
    if |items| == 0 then 0 else LineTotal(items[0]) + Subtotal(items[1..])
  }

  /** Sum of the savings of the wholesale lines. */
  function TotalSavings(cart: seq<CartLine>): int
    requires AllLinesOk(cart)
  {
    if |cart| == 0 then 0
    else
      TailLinesOk(cart);
      LineSavings(cart[0]) + TotalSavings(cart[1..])
  }

  /** What the cart would cost with every line at the retail price. */
  function RetailValue(cart: seq<CartLine>): int
    requires AllLinesOk(cart)
  {
    if |cart| == 0 then 0
    else
      TailLinesOk(cart);
      RetailLineValue(cart[0]) + RetailValue(cart[1..])
  }

  /** Shipping fee for a subtotal: free strictly over the threshold. */
  function Shipping(subtotal: int): (fee: int)
    ensures fee == 0 <==> subtotal > FreeShippingOver
    ensures fee == 0 || fee == FlatShipping
  {
    if subtotal > FreeShippingOver then 0 else FlatShipping
  }

  /** Everything a successfully assembled order records about its request
      and cart. The clauses determine the order completely (see
      AssemblyDeterminesOrder). */
  predicate IsAssembledFrom(o: Order, req: Request, cart: seq<CartLine>, uuid: string)
    requires AllLinesOk(cart)
  {
    && |o.items| == |cart|
    && (forall i :: 0 <= i < |cart| ==>
          IsSnapshotOf(o.items[i], cart[i]) && o.items[i].quantity <= cart[i].product.value.stock)
    && o.subtotal == Subtotal(o.items)
    && o.subtotal + o.totalSavings == RetailValue(cart)
    && (o.shipping == 0 <==> o.subtotal > FreeShippingOver)
    && (o.shipping == 0 || o.shipping == FlatShipping)
    && o.total == o.subtotal + o.shipping
    && o.orderStatus == Pending
    && o.paymentStatus == Pending
    && o.userId == req.userId
    && o.deliveryAddress == req.deliveryAddress.GetOr("")
    && o.paymentMethod == req.paymentMethod.GetOr(DefaultPaymentMethod)
    && o.notes == req.notes.GetOr(DefaultNotes)
    && o.orderId == FormatOrderId(uuid)
  }

  lemma {:induction false} SubtotalAppend(a: seq<OrderItem>, b: seq<OrderItem>)
    ensures Subtotal(a + b) == Subtotal(a) + Subtotal(b)
  {
    if |a| > 0 {
      assert (a + b)[1..] == a[1..] + b;
      SubtotalAppend(a[1..], b);
    } else {
      assert a + b == b;
    }
  }

  /** Extending the cart by a valid line extends the items by its snapshot. */
  lemma ItemsSnoc(cart: seq<CartLine>, line: CartLine)
    requires AllLinesOk(cart) && LineOk(line)
    ensures AllLinesOk(cart + [line])
    ensures Items(cart + [line]) == Items(cart) + [PriceLine(line)]
  {
    assert forall i :: 0 <= i < |cart| ==> (cart + [line])[i] == cart[i];
    assert (cart + [line])[|cart|] == line;
  }

  lemma {:induction false} TotalSavingsSnoc(cart: seq<CartLine>, line: CartLine)
    requires AllLinesOk(cart + [line])
    ensures AllLinesOk(cart) && LineOk(line)
    ensures TotalSavings(cart + [line]) == TotalSavings(cart) + LineSavings(line)
  {
    assert forall i :: 0 <= i < |cart| ==> cart[i] == (cart + [line])[i];
    assert (cart + [line])[|cart|] == line;
    if |cart| > 0 {
      assert (cart + [line])[1..] == cart[1..] + [line];
      TotalSavingsSnoc(cart[1..], line);
    } else {
      assert (cart + [line])[1..] == [];
    }
  }

  /** Savings are exactly the discount off the retail value of the cart. */
  lemma {:induction false} SavingsAreDiscount(cart: seq<CartLine>)
    requires AllLinesOk(cart)
    ensures Subtotal(Items(cart)) + TotalSavings(cart) == RetailValue(cart)
  {
    if |cart| > 0 {
      TailLinesOk(cart);
      assert Items(cart)[1..] == Items(cart[1..]);
      LineSavingsComplement(cart[0]);
      SavingsAreDiscount(cart[1..]);
    }
  }

  /** A cart without wholesale lines saves nothing and is charged at retail. */
  lemma {:induction false} RetailCartSavesNothing(cart: seq<CartLine>)
    requires AllLinesOk(cart)
    requires forall i :: 0 <= i < |cart| ==> !IsWholesale(cart[i].product.value, cart[i].quantity)
    ensures TotalSavings(cart) == 0
    ensures Subtotal(Items(cart)) == RetailValue(cart)
  {
    if |cart| > 0 {
      TailLinesOk(cart);
      RetailCartSavesNothing(cart[1..]);
    }
    SavingsAreDiscount(cart);
  }

  /** createOrder as a whole: address first, then an empty cart, then the
      lines in order, then pricing and totals. */
  function BuildOrder(req: Request, cart: seq<CartLine>, uuid: string): (r: Result<Order, OrderError>)
    ensures !AddressGiven(req.deliveryAddress) ==> r == Failure(AddressRequired)
    ensures AddressGiven(req.deliveryAddress) && |cart| == 0 ==> r == Failure(CartEmpty)
    ensures r.Success? <==> AddressGiven(req.deliveryAddress) && |cart| > 0 && AllLinesOk(cart)
    ensures r.Failure? && AddressGiven(req.deliveryAddress) && |cart| > 0 ==>
      exists k :: FirstBadLine(cart, k) && r.error == LineError(cart[k])
    ensures r.Success? ==> IsAssembledFrom(r.value, req, cart, uuid)
  {
    if !AddressGiven(req.deliveryAddress) then Failure(AddressRequired)
    else if |cart| == 0 then Failure(CartEmpty)
    else match ValidateCart(cart)
      case Some(e) => Failure(e)
      case None =>
        var items := Items(cart);
        var subtotal := Subtotal(items);
        var shipping := Shipping(subtotal);
        SavingsAreDiscount(cart);
        Success(Order(
          req.userId, FormatOrderId(uuid), items, req.deliveryAddress.value,
          subtotal, shipping, subtotal + shipping, TotalSavings(cart),
          req.paymentMethod.GetOr(DefaultPaymentMethod), req.notes.GetOr(DefaultNotes),
          Pending, Pending))
  }

  /** The running state of the pass over the cart. */
  datatype Tally = Tally(items: seq<OrderItem>, subtotal: int, savings: int)

  /** The pricing step of the pass for one valid line: the item pushed, its
      charged amount and its savings. */
  method PriceCartLine(line: CartLine) returns (item: OrderItem, itemSubtotal: int, savings: int)
    requires LineOk(line)
    ensures item == PriceLine(line)
    ensures itemSubtotal == LineTotal(item)
    ensures savings == LineSavings(line)
  {
    var p := line.product.value;
    var wholesale := p.wholesaleEnabled && line.quantity >= EffectiveMoq(p);
    var price := if wholesale then p.wholesalePrice else p.price;
    itemSubtotal := price * line.quantity;
    savings := if wholesale then (p.price - p.wholesalePrice) * line.quantity else 0;
    item := OrderItem(p.id, p.name, PrimaryImage(p), line.quantity, price,
                      TierTag(if wholesale then Wholesale else Retail));
  }

  /** The pass over the cart: validates, prices and accumulates the running
      totals, returning at the first failing line. */
  method TallyCart(cart: seq<CartLine>) returns (r: Result<Tally, OrderError>)
    ensures ValidateCart(cart).Some? ==> r == Failure(ValidateCart(cart).value)
    ensures ValidateCart(cart).None? ==>
      r == Success(Tally(Items(cart), Subtotal(Items(cart)), TotalSavings(cart)))
  {
    var subtotal := 0;
    var totalSavings := 0;
    var items: seq<OrderItem> := [];
    for i := 0 to |cart|
      invariant AllLinesOk(cart[..i])
      invariant items == Items(cart[..i])
      invariant subtotal == Subtotal(items)
      invariant totalSavings == TotalSavings(cart[..i])
    {
      var line := cart[i];
      if line.product.None? || line.quantity > line.product.value.stock {
        assert FirstBadLine(cart, i);
        return Failure(LineError(line));
      }
      var item, itemSubtotal, savings := PriceCartLine(line);
      assert cart[..i + 1] == cart[..i] + [line];
      ItemsSnoc(cart[..i], line);
      TotalSavingsSnoc(cart[..i], line);
      SubtotalAppend(items, [item]);
      subtotal := subtotal + itemSubtotal;
      totalSavings := totalSavings + savings;
      items := items + [item];
    }
    assert cart[..|cart|] == cart;
    return Success(Tally(items, subtotal, totalSavings));
  }

  /** The step-by-step form of createOrder, in the source's order of checks.
      It agrees with BuildOrder on every input. */
  method CreateOrder(req: Request, cart: seq<CartLine>, uuid: string) returns (r: Result<Order, OrderError>)
    ensures r == BuildOrder(req, cart, uuid)
  {
    if !AddressGiven(req.deliveryAddress) {
      return Failure(AddressRequired);
    }
    if |cart| == 0 {
      return Failure(CartEmpty);
    }
    var tally := TallyCart(cart);
    if tally.Failure? {
      return Failure(tally.error);
    }
    var t := tally.value;
    var shipping := if t.subtotal > FreeShippingOver then 0 else FlatShipping;
    return Success(Order(
      req.userId, FormatOrderId(uuid), t.items, req.deliveryAddress.value,
      t.subtotal, shipping, t.subtotal + shipping, t.savings,
      req.paymentMethod.GetOr(DefaultPaymentMethod), req.notes.GetOr(DefaultNotes),
      Pending, Pending));
  }

  /** The assembly contract leaves no freedom: two orders assembled from the
      same request, cart and UUID are equal. */
  lemma AssemblyDeterminesOrder(o1: Order, o2: Order, req: Request, cart: seq<CartLine>, uuid: string)
    requires AllLinesOk(cart)
    requires IsAssembledFrom(o1, req, cart, uuid) && IsAssembledFrom(o2, req, cart, uuid)
    ensures o1 == o2
  {
    assert o1.items == o2.items by {
      forall i | 0 <= i < |cart|
        ensures o1.items[i] == o2.items[i]
      {
        assert IsSnapshotOf(o1.items[i], cart[i]) && IsSnapshotOf(o2.items[i], cart[i]);
      }
    }
  }

  /** The worked example: 2 x 10.00 at retail plus 3 x 20.00 reaching the
      wholesale threshold of 3 at 15.00. */
  const ExampleCart: seq<CartLine> := [
    CartLine("l1", Some(Product("A", "A", [], 5, 1000, false, 0, None)), 2),
    CartLine("l2", Some(Product("B", "B", [], 10, 2000, true, 1500, Some(3))), 3)]

  /** The example costs 65.00, saves 15.00 and ships free. */
  lemma WorkedExample()
    ensures
      var r := BuildOrder(Request("u", Some("addr"), None, None), ExampleCart, "c0ffee-1");
      && r.Success?
      && r.value.items[1].pricingTier == "wholesale"
      && r.value.subtotal == 6500
      && r.value.totalSavings == 1500
      && r.value.shipping == 0
      && r.value.total == 6500
      && r.value.paymentMethod == "cod"
  {
    var cart := ExampleCart;
    assert LineOk(cart[0]) && LineOk(cart[1]);
    var items := Items(cart);
    var i0 := PriceLine(cart[0]);
    var i1 := PriceLine(cart[1]);
    assert i0.price == 1000 && i0.quantity == 2;
    assert i1.price == 1500 && i1.quantity == 3 && i1.pricingTier == "wholesale";
    assert items == [i0, i1];
    assert Subtotal(items) == 6500 by {
      assert [i0, i1][1..] == [i1];
      assert [i1][1..] == [];
      assert Subtotal([i1]) == LineTotal(i1) + Subtotal([]) == 4500;
      assert Subtotal([i0, i1]) == LineTotal(i0) + Subtotal([i1]);
    }
    assert RetailValue(cart) == 8000 by {
      assert cart[1..][1..] == [];
    }
    SavingsAreDiscount(cart);
  }

  /** A new order starts in a status the status routes accept, with payment pending. */
  lemma NewOrderStatusIsValid(req: Request, cart: seq<CartLine>, uuid: string)
    requires BuildOrder(req, cart, uuid).Success?
    ensures IsValidStatus(Some(BuildOrder(req, cart, uuid).value.orderStatus))
    ensures BuildOrder(req, cart, uuid).value.paymentStatus == "pending"
  {
  }
}
