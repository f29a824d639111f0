/**
 * The server-side fee helpers: a validated fee quote for an amount, and the
 * appending of a synthetic fee line to a list of Stripe checkout line items.
 */
module TransactionFee {
  import opened Wrappers
  import opened Js
  import Utils

  /** The quote `getTransactionFee` returns. */
  datatype FeeQuote = FeeQuote(subtotal: int, fee: int, total: int, feePercentage: int)

  /** The product description Stripe shows on a checkout line. */
  datatype ProductData = ProductData(name: string, description: string, images: seq<string>, productId: Option<string>)

  /** Inline pricing for a line: currency, product and unit amount in cents. */
  datatype PriceData = PriceData(currency: string, product: ProductData, unitAmount: Number)

  /**
   * A Stripe checkout line item: either inline `price_data` or a `price`
   * reference, and a quantity. `amount` is a top-level field that the fee
   * helper reads; the line items built at checkout never set it.
   */
  datatype LineItem = LineItem(priceData: Option<PriceData>, price: Option<string>, quantity: int, amount: Option<int>)

  const FeeLineName: string := "Transaction Fee (5%)"
  const FeeLineDescription: string := "Standard 5% processing fee"

  /**
   * `getTransactionFee(amount)`: rejects a falsy (0 or NaN) or negative amount,
   * otherwise quotes the fee and total for it.
   */
  function GetTransactionFee(amount: Number): (r: Result<FeeQuote>)
    ensures r.Err? <==> amount.NaN? || amount.n <= 0
    ensures r.Err? ==> r.error == "Invalid amount provided"
    ensures r.Ok? ==> r.value.subtotal == amount.n && r.value.feePercentage == Utils.FeePercentage
    ensures r.Ok? ==> 20 * r.value.fee - 10 <= r.value.subtotal < 20 * r.value.fee + 10
    ensures r.Ok? ==> r.value.total == r.value.subtotal + r.value.fee
  {
    if amount.NaN? || amount.n == 0 || amount.n < 0 then Err("Invalid amount provided")
    else
      var fee := Utils.TransactionFee(amount.n);
      var total := Utils.Total(amount.n);
      Ok(FeeQuote(amount.n, fee, total, 5))
  }

  /** A successful quote has a non-negative fee no larger than the amount, and a total above it. */
  lemma QuoteBounds(amount: Number)
    requires GetTransactionFee(amount).Ok?
    ensures var q := GetTransactionFee(amount).value;
      0 <= q.fee <= q.subtotal && q.subtotal <= q.total
  {
    Utils.FeeBounds(amount.n);
  }

  /** `item.amount * item.quantity`, NaN when `amount` is unset. */
  function LineAmount(item: LineItem): Number {
    Scale(OfOptional(item.amount), item.quantity)
  }

  /** The `reduce` over `amount * quantity` from 0. */
  function LineSum(items: seq<LineItem>): (r: Number)
    ensures r.NaN? <==> exists i :: 0 <= i < |items| && items[i].amount.None?
  {
    if items == [] then Int(0)
    else
      var r := Add(LineSum(items[..|items| - 1]), LineAmount(items[|items| - 1]));
      assert forall i :: 0 <= i < |items| - 1 ==> items[..|items| - 1][i] == items[i];
      r
  }

  /** The synthetic line charging `fee` once. */
  function FeeLine(fee: Number, description: string): (line: LineItem)
    ensures line.quantity == 1 && line.price.None? && line.amount.None?
    ensures line.priceData.Some? && line.priceData.value.unitAmount == fee
    ensures line.priceData.value.currency == "usd" && line.priceData.value.product.name == FeeLineName
  {
    LineItem(Some(PriceData("usd", ProductData(FeeLineName, description, [], None), fee)), None, 1, None)
  }

  /**
   * `addTransactionFeeToLineItems(lineItems)`: an empty list is returned as it
   * is; otherwise one fee line is appended whose unit amount is the fee of the
   * summed `amount * quantity`.
   */
  function AddTransactionFeeToLineItems(items: seq<LineItem>): (r: seq<LineItem>)
    ensures items == [] ==> r == []
    ensures items != [] ==> |r| == |items| + 1 && r[..|items|] == items
    ensures items != [] ==> r[|items|] == FeeLine(Utils.FeeOfNumber(LineSum(items)), FeeLineDescription)
    ensures items != [] ==>
      (r[|items|].priceData.value.unitAmount.NaN? <==> exists i :: 0 <= i < |items| && items[i].amount.None?)
  {
    if items == [] then items
    else items + [FeeLine(Utils.FeeOfNumber(LineSum(items)), FeeLineDescription)]
  }

  /** Once every line carries its amount, the fee line charges the fee of the summed amounts. */
  lemma FeeOfAmounts(items: seq<LineItem>)
    requires items != []
    requires forall i :: 0 <= i < |items| ==> items[i].amount.Some?
    ensures LineSum(items).Int?
    ensures AddTransactionFeeToLineItems(items)[|items|].priceData.value.unitAmount ==
      Int(Utils.TransactionFee(LineSum(items).n))
  {
  }

  // ---------------------------------------------------------------------------
  // The fee from the inline unit amounts

  /** `price_data.unit_amount * quantity`, NaN for a line without inline pricing. */
  function LineUnitTotal(item: LineItem): Number {
    if item.priceData.Some? then Scale(item.priceData.value.unitAmount, item.quantity) else NaN
  }

  /** The sum of `unit_amount * quantity` over the lines. */
  function UnitSum(items: seq<LineItem>): Number {
    if items == [] then Int(0)
    else Add(UnitSum(items[..|items| - 1]), LineUnitTotal(items[|items| - 1]))
  }

  /**
   * The fee line computed from the inline unit amounts that checkout line
   * items do carry: an empty list is returned as it is, otherwise one fee line
   * is appended.
   */
  function AddFeeFromUnitAmounts(items: seq<LineItem>): (r: seq<LineItem>)
    ensures items == [] ==> r == []
    ensures items != [] ==> |r| == |items| + 1 && r[..|items|] == items
    ensures items != [] ==> r[|items|] == FeeLine(Utils.FeeOfNumber(UnitSum(items)), FeeLineDescription)
  {
    if items == [] then items
    else items + [FeeLine(Utils.FeeOfNumber(UnitSum(items)), FeeLineDescription)]
  }
}
