/**
 * The transaction fee hook: a subtotal held as state, with the fee and the
 * total derived from it, and a calculator for any amount.
 */
module FeeHook {
  import opened Wrappers
  import opened Js
  import Utils
  import TF = TransactionFee

  /** `{ amount, fee, total, feePercentage }`. */
  datatype FeeBreakdown = FeeBreakdown(amount: int, fee: int, total: int, feePercentage: int)

  /** `calculateFeeFor(amt)`: the fee and total for `amt`, echoing it, at 5%. */
  function CalculateFeeFor(amount: int): (b: FeeBreakdown)
    ensures b.amount == amount && b.feePercentage == Utils.FeePercentage
    ensures 20 * b.fee - 10 <= amount < 20 * b.fee + 10
    ensures b.total == amount + b.fee
  {
    FeeBreakdown(amount, Utils.TransactionFee(amount), Utils.Total(amount), 5)
  }

  /** On every amount the server accepts, the calculator and the server quote agree. */
  lemma CalculatorAgreesWithQuote(amount: int)
    requires amount > 0
    ensures var b := CalculateFeeFor(amount);
      TF.GetTransactionFee(Int(amount)) == Ok(TF.FeeQuote(b.amount, b.fee, b.total, b.feePercentage))
  {
  }

  /** `useTransactionFee(amount)`'s state. */
  class FeeTracker {
    var subtotal: int

    /** `useTransactionFee(amount = 0)`. */
    constructor (amount: int)
      ensures subtotal == amount
    {
      subtotal := amount;
    }

    /** `feeAmount`: the fee of the current subtotal. */
    function FeeAmount(): (fee: int)
      reads this
      ensures 20 * fee - 10 <= subtotal < 20 * fee + 10
    {
      Utils.TransactionFee(subtotal)
    }

    /** `totalAmount`: the current subtotal plus its fee. */
    function TotalAmount(): (total: int)
      reads this
      ensures total == subtotal + FeeAmount()
    {
      Utils.Total(subtotal)
    }

    /** `updateSubtotal(newAmount)`, also what the effect on a changed `amount` does. */
    method UpdateSubtotal(newAmount: int)
      modifies this
      ensures subtotal == newAmount
      ensures FeeAmount() == CalculateFeeFor(newAmount).fee && TotalAmount() == CalculateFeeFor(newAmount).total
    {
      subtotal := newAmount;
    }
  }
}
