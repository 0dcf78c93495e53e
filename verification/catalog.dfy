/** Products, cart lines and the per-line pricing rule of order creation.
    Money is counted in integer cents. */
module Catalog {
  import opened Wrappers

  /** A product as read from the catalogue when the order is assembled.
      `imageUrls` holds the `url` of each entry of `images` (None when the
      entry or its url is missing); `moq` is None when the field is absent. */
  datatype Product = Product(
    id: string,
    name: string,
    imageUrls: seq<Option<string>>,
    stock: int,
    price: int,
    wholesaleEnabled: bool,
    wholesalePrice: int,
    moq: Option<int>)

  /** One cart entry after `populate`: the product reference resolves to
      None when the product no longer exists. */
  datatype CartLine = CartLine(id: string, product: Option<Product>, quantity: int)

  datatype Tier = Retail | Wholesale

  /** The `pricingTier` tag stored on an order item. */
  function TierTag(t: Tier): (tag: string)
    ensures tag == "wholesale" <==> t == Wholesale
    ensures tag == "retail" <==> t == Retail
  {
    match t
    case Retail => "retail"
    case Wholesale => "wholesale"
  }

  /** An order line: a snapshot of the product taken at order time, with
      the tag of the tier it was priced at. */
  datatype OrderItem = OrderItem(
    productId: string,
    name: string,
    image: string,
    quantity: int,
    price: int,
    pricingTier: string)

  /** `product.moq || 1`: an absent or zero threshold falls back to 1. */
  function EffectiveMoq(p: Product): int {
    match p.moq
    case None => 1
    case Some(m) => if m == 0 then 1 else m
  }

  predicate IsWholesale(p: Product, quantity: int) {
    p.wholesaleEnabled && quantity >= EffectiveMoq(p)
  }

  /** `product.images[0]?.url || ''`. */
  function PrimaryImage(p: Product): string {
    if |p.imageUrls| == 0 then "" else p.imageUrls[0].GetOr("")
  }

  /** What an order item must record about the cart line it came from. */
  predicate IsSnapshotOf(item: OrderItem, line: CartLine) {
    && line.product.Some?
    && var p := line.product.value;
    && item.productId == p.id
    && item.name == p.name
    && item.image == PrimaryImage(p)
    && item.quantity == line.quantity
    && (item.pricingTier == "wholesale" <==> p.wholesaleEnabled && line.quantity >= EffectiveMoq(p))
    && (item.pricingTier == "retail" <==> !(p.wholesaleEnabled && line.quantity >= EffectiveMoq(p)))
    && item.price == (if item.pricingTier == "wholesale" then p.wholesalePrice else p.price)
  }

  /** Prices one resolved cart line. */
  function PriceLine(line: CartLine): (item: OrderItem)
    requires line.product.Some?
    ensures IsSnapshotOf(item, line)
    ensures item.pricingTier == "wholesale" ==> line.product.value.wholesaleEnabled
    ensures line.product.value.moq.None? || line.product.value.moq == Some(0) ==>
              (item.pricingTier == "wholesale" <==> line.product.value.wholesaleEnabled && line.quantity >= 1)
    ensures line.product.value.wholesaleEnabled && line.quantity == EffectiveMoq(line.product.value) ==>
              item.pricingTier == "wholesale" && item.price == line.product.value.wholesalePrice
  {
    var p := line.product.value;
    var wholesale := IsWholesale(p, line.quantity);
    OrderItem(p.id, p.name, PrimaryImage(p), line.quantity,
              if wholesale then p.wholesalePrice else p.price,
              TierTag(if wholesale then Wholesale else Retail))
  }

  /** Charged amount for an item: unit price times quantity. */
  function LineTotal(item: OrderItem): int {
    item.price * item.quantity
  }

  /** What a line would cost at the retail price. */
  function RetailLineValue(line: CartLine): int
    requires line.product.Some?
  {
    line.product.value.price * line.quantity
  }

  /** Savings of one line: the retail-minus-wholesale difference on
      wholesale lines, nothing on retail lines. */
  function LineSavings(line: CartLine): int
    requires line.product.Some?
  {
    var p := line.product.value;
    if IsWholesale(p, line.quantity) then (p.price - p.wholesalePrice) * line.quantity else 0
  }

  /** The charged amount plus the recorded savings is the retail value. */
  lemma LineSavingsComplement(line: CartLine)
    requires line.product.Some?
    ensures LineTotal(PriceLine(line)) + LineSavings(line) == RetailLineValue(line)
    ensures PriceLine(line).pricingTier == "retail" ==> LineSavings(line) == 0
  {
  }

  /** Once a quantity reaches the wholesale tier, every larger quantity stays there. */
  lemma WholesaleMonotone(p: Product, q1: int, q2: int)
    requires IsWholesale(p, q1) && q1 <= q2
    ensures IsWholesale(p, q2)
  {
  }
}
