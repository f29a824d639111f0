/**
 * Building the Stripe Checkout requests: a one-time payment for the cart
 * lines plus a fee line, and a subscription to one price plus a one-time
 * fee. The Stripe `checkout.sessions.create` call is a parameter that either
 * returns a session or fails with a message.
 */
module Checkout {
  import opened Wrappers
  import opened Js
  import opened Domain
  import Utils
  import Cart
  import TF = TransactionFee

  datatype Mode = Payment | Subscription

  /** The parameters passed to `checkout.sessions.create`. */
  datatype SessionRequest = SessionRequest(
    lineItems: seq<TF.LineItem>,
    customer: Option<string>,
    mode: Mode,
    successUrl: string,
    cancelUrl: string,
    metadata: map<string, string>,
    billingAddressCollection: string,
    allowPromotionCodes: bool)

  /** What Stripe returns for a created session. */
  datatype Session = Session(url: string, id: string)

  /** `{ url, sessionId }`. */
  datatype CheckoutResult = CheckoutResult(url: string, sessionId: string)

  /** The product a subscription is bought for; `price` is read as a number and may be NaN. */
  datatype SubscriptionProduct = SubscriptionProduct(id: string, price: Number)

  const DefaultDomain: string := "http://localhost:3000"
  const SubscriptionFeeDescription: string := "One-time processing fee"

  /** `process.env.NEXT_PUBLIC_APP_URL || 'http://localhost:3000'`. */
  function AppDomain(appUrl: Option<string>): (d: string)
    ensures Truthy(appUrl) ==> d == appUrl.value
    ensures !Truthy(appUrl) ==> d == DefaultDomain
  {
    if Truthy(appUrl) then appUrl.value else DefaultDomain
  }

  function SuccessUrl(appUrl: Option<string>): string {
    AppDomain(appUrl) + "/checkout/success?session_id={CHECKOUT_SESSION_ID}"
  }

  function CancelUrl(appUrl: Option<string>): string {
    AppDomain(appUrl) + "/checkout/cancel"
  }

  /**
   * The line item for one cart line: inline USD pricing at the line's unit
   * price, the line's quantity (`|| 1`), the product id in the product
   * metadata, and no images (cart lines carry none).
   */
  function CartLineItem(item: CartItem): (line: TF.LineItem)
    ensures line.priceData.Some? && line.price.None? && line.amount.None?
    ensures line.priceData.value.unitAmount == Int(item.price)
    ensures line.quantity == Cart.LineQuantity(item) && line.quantity != 0
    ensures line.priceData.value.currency == "usd"
    ensures line.priceData.value.product.name == item.name
    ensures line.priceData.value.product.productId == Some(item.id)
    ensures line.priceData.value.product.description == item.description.GetOr("")
  {
    TF.LineItem(
      Some(TF.PriceData("usd", TF.ProductData(item.name, item.description.GetOr(""), [], Some(item.id)), Int(item.price))),
      None,
      Cart.LineQuantity(item),
      None)
  }

  /** `cartItems.map(...)`, one line item per cart line, in order. */
  function CartLineItems(cart: seq<CartItem>): (lines: seq<TF.LineItem>)
    ensures |lines| == |cart|
    ensures forall i :: 0 <= i < |cart| ==> lines[i] == CartLineItem(cart[i])
  {
    seq(|cart|, i requires 0 <= i < |cart| => CartLineItem(cart[i]))
  }

  /** `cartItems.map(item => item.id)`. */
  function Ids(cart: seq<CartItem>): (ids: seq<string>)
    ensures |ids| == |cart| && forall i :: 0 <= i < |cart| ==> ids[i] == cart[i].id
  {
    seq(|cart|, i requires 0 <= i < |cart| => cart[i].id)
  }

  /** The request `createCheckoutSession` sends for a non-empty cart. */
  function CheckoutRequest(cart: seq<CartItem>, customerId: Option<string>, appUrl: Option<string>): SessionRequest {
    SessionRequest(
      TF.AddTransactionFeeToLineItems(CartLineItems(cart)),
      customerId,
      Payment,
      SuccessUrl(appUrl),
      CancelUrl(appUrl),
      map["productIds" := Join(Ids(cart), ',')],
      "required",
      true)
  }

  /**
   * `createCheckoutSession(cartItems, customerId)`: a missing or empty cart
   * fails before Stripe is called; a Stripe failure is reported with a
   * prefix; otherwise the session's url and id.
   */
  function CreateCheckoutSession(cart: Option<seq<CartItem>>, customerId: Option<string>, appUrl: Option<string>,
                                 create: SessionRequest -> Result<Session>): (r: Result<CheckoutResult>)
    ensures cart.None? || cart.value == [] ==> r == Err("Cart is empty")
    ensures cart.Some? && cart.value != [] ==>
      var response := create(CheckoutRequest(cart.value, customerId, appUrl));
      && (r.Ok? <==> response.Ok?)
      && (r.Ok? ==> r.value == CheckoutResult(response.value.url, response.value.id))
      && (r.Err? ==> r.error == "Failed to create checkout session: " + response.error)
  {
    if cart.None? || cart.value == [] then Err("Cart is empty")
    else
      match create(CheckoutRequest(cart.value, customerId, appUrl))
      case Ok(session) => Ok(CheckoutResult(session.url, session.id))
      case Err(msg) => Err("Failed to create checkout session: " + msg)
  }

  /** An empty cart is rejected whatever Stripe would answer: Stripe is never consulted. */
  lemma EmptyCartSkipsProvider(cart: Option<seq<CartItem>>, customerId: Option<string>, appUrl: Option<string>,
                               create1: SessionRequest -> Result<Session>, create2: SessionRequest -> Result<Session>)
    requires cart.None? || cart.value == []
    ensures CreateCheckoutSession(cart, customerId, appUrl, create1) == CreateCheckoutSession(cart, customerId, appUrl, create2)
  {
  }

  /**
   * The payment request: one line per cart line in cart order, then exactly
   * one fee line; payment mode; the customer as given; and the cart's ids
   * joined with commas as `productIds`.
   */
  lemma CheckoutRequestShape(cart: seq<CartItem>, customerId: Option<string>, appUrl: Option<string>)
    requires cart != []
    ensures var req := CheckoutRequest(cart, customerId, appUrl);
      && |req.lineItems| == |cart| + 1
      && (forall i :: 0 <= i < |cart| ==> req.lineItems[i] == CartLineItem(cart[i]))
      && req.lineItems[|cart|].quantity == 1
      && req.lineItems[|cart|].priceData.value.product.name == TF.FeeLineName
      && req.mode == Payment && req.customer == customerId
      && req.metadata == map["productIds" := Join(Ids(cart), ',')]
  {
    var lines := CartLineItems(cart);
    assert TF.AddTransactionFeeToLineItems(lines)[..|cart|] == lines;
  }

  /** Splitting `productIds` on commas gives back the cart's ids, when no id holds a comma. */
  lemma ProductIdsRoundTrip(cart: seq<CartItem>, customerId: Option<string>, appUrl: Option<string>)
    requires cart != []
    requires forall i :: 0 <= i < |cart| ==> ',' !in cart[i].id
    ensures Split(CheckoutRequest(cart, customerId, appUrl).metadata["productIds"], ',') == Ids(cart)
  {
    SplitJoin(Ids(cart), ',');
  }

  /**
   * The line items built from a cart carry no top-level `amount`, so the
   * summed amount is NaN and so is the fee line's unit amount: the payment
   * request never charges a numeric fee.
   */
  lemma CartFeeLineIsNaN(cart: seq<CartItem>, customerId: Option<string>, appUrl: Option<string>)
    requires cart != []
    ensures CheckoutRequest(cart, customerId, appUrl).lineItems[|cart|].priceData.value.unitAmount == NaN
  {
    var lines := CartLineItems(cart);
    assert lines[0].amount.None?;
  }

  // ---------------------------------------------------------------------------
  // The fee as intended: 5% of the cart's subtotal

  /** The payment request with the fee line computed from the inline unit amounts. */
  function IntendedCheckoutRequest(cart: seq<CartItem>, customerId: Option<string>, appUrl: Option<string>): SessionRequest {
    CheckoutRequest(cart, customerId, appUrl).(lineItems := TF.AddFeeFromUnitAmounts(CartLineItems(cart)))
  }

  /** Summing `unit_amount * quantity` over the cart's line items gives the cart's subtotal. */
  lemma {:induction false} UnitSumIsSubtotal(cart: seq<CartItem>)
    ensures TF.UnitSum(CartLineItems(cart)) == Int(Cart.Subtotal(cart))
  {
    if cart != [] {
      var n := |cart|;
      assert CartLineItems(cart)[..n - 1] == CartLineItems(cart[..n - 1]);
      UnitSumIsSubtotal(cart[..n - 1]);
    }
  }

  /**
   * With the fee computed from the unit amounts, the fee line charges
   * exactly the cart's fee: 5% of the subtotal the cart shows, rounded half up.
   */
  lemma IntendedFeeMatchesCart(cart: seq<CartItem>, customerId: Option<string>, appUrl: Option<string>)
    requires cart != []
    ensures var req := IntendedCheckoutRequest(cart, customerId, appUrl);
      && |req.lineItems| == |cart| + 1
      && (forall i :: 0 <= i < |cart| ==> req.lineItems[i] == CartLineItem(cart[i]))
      && req.lineItems[|cart|].quantity == 1
      && req.lineItems[|cart|].priceData.value.unitAmount == Int(Cart.CartFee(cart))
  {
    var lines := CartLineItems(cart);
    assert TF.AddFeeFromUnitAmounts(lines)[..|cart|] == lines;
    UnitSumIsSubtotal(cart);
  }

  // ---------------------------------------------------------------------------
  // Subscriptions

  /** The request `createSubscriptionCheckout` sends. */
  function SubscriptionRequest(product: SubscriptionProduct, priceId: string, customerId: Option<string>,
                               appUrl: Option<string>): SessionRequest {
    SessionRequest(
      [ TF.LineItem(None, Some(priceId), 1, None),
        TF.FeeLine(Utils.FeeOfNumber(product.price), SubscriptionFeeDescription) ],
      customerId,
      Subscription,
      SuccessUrl(appUrl),
      CancelUrl(appUrl),
      map["productId" := product.id],
      "required",
      true)
  }

  /**
   * `createSubscriptionCheckout(product, priceId, customerId)`: the product,
   * then a truthy price id, are required before Stripe is called; a Stripe
   * failure is reported with a prefix.
   */
  function CreateSubscriptionCheckout(product: Option<SubscriptionProduct>, priceId: Option<string>,
                                      customerId: Option<string>, appUrl: Option<string>,
                                      create: SessionRequest -> Result<Session>): (r: Result<CheckoutResult>)
    ensures product.None? ==> r == Err("Product is required")
    ensures product.Some? && !Truthy(priceId) ==> r == Err("Price ID is required")
    ensures product.Some? && Truthy(priceId) ==>
      var response := create(SubscriptionRequest(product.value, priceId.value, customerId, appUrl));
      && (r.Ok? <==> response.Ok?)
      && (r.Ok? ==> r.value == CheckoutResult(response.value.url, response.value.id))
      && (r.Err? ==> r.error == "Failed to create subscription checkout: " + response.error)
  {
    if product.None? then Err("Product is required")
    else if !Truthy(priceId) then Err("Price ID is required")
    else
      match create(SubscriptionRequest(product.value, priceId.value, customerId, appUrl))
      case Ok(session) => Ok(CheckoutResult(session.url, session.id))
      case Err(msg) => Err("Failed to create subscription checkout: " + msg)
  }

  /**
   * The subscription request has exactly two lines: the price, once, then a
   * one-time fee of 5% of the product's price, once; subscription mode; and
   * the product id as metadata.
   */
  lemma SubscriptionRequestShape(product: SubscriptionProduct, priceId: string, customerId: Option<string>, appUrl: Option<string>)
    ensures var req := SubscriptionRequest(product, priceId, customerId, appUrl);
      && |req.lineItems| == 2
      && req.lineItems[0].price == Some(priceId) && req.lineItems[0].quantity == 1
      && req.lineItems[0].priceData.None?
      && req.lineItems[1].quantity == 1
      && (product.price.Int? ==>
           req.lineItems[1].priceData.value.unitAmount == Int(Utils.TransactionFee(product.price.n)))
      && (product.price.NaN? ==> req.lineItems[1].priceData.value.unitAmount == NaN)
      && req.mode == Subscription
      && req.metadata == map["productId" := product.id]
  {
  }
}
