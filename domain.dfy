/**
 * The records the storefront passes around: Stripe prices and products as
 * the product queries return them, and the line items of the browser cart.
 */
module Domain {
  import opened Wrappers

  /** A Stripe price; `unitAmount` is in cents and may be unset. */
  datatype Price = Price(id: string, unitAmount: Option<int>, recurring: bool)

  /**
   * A Stripe product with its prices attached: `defaultPrice` is the first
   * price, `category` is `metadata.category`.
   */
  datatype Product = Product(
    id: string,
    name: string,
    description: Option<string>,
    defaultPrice: Option<Price>,
    prices: Option<seq<Price>>,
    images: Option<seq<string>>,
    category: Option<string>)

  /** One entry of the browser cart; `price` is the unit price in cents. */
  datatype CartItem = CartItem(
    id: string,
    name: string,
    description: Option<string>,
    price: int,
    priceId: Option<string>,
    image: Option<string>,
    quantity: int)

  /** `product.defaultPrice?.unit_amount || 0`. */
  function UnitPrice(p: Product): (price: int)
    ensures p.defaultPrice.Some? && p.defaultPrice.value.unitAmount.Some? ==> price == p.defaultPrice.value.unitAmount.value
    ensures p.defaultPrice.None? || p.defaultPrice.value.unitAmount.None? ==> price == 0
  {
    if p.defaultPrice.Some? then p.defaultPrice.value.unitAmount.GetOr(0) else 0
  }

  function ProductId(p: Product): string {
    p.id
  }

  function ItemId(item: CartItem): string {
    item.id
  }
}
