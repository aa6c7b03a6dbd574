/**
 * `calculateTotalWithDiscount`: a fixed shipping fee on top of the subtotal,
 * waived by the "freeShipping" token; "10PercentOff" takes a tenth off the
 * subtotal only. Amounts are exact reals.
 */
module Amounts {

  const ShippingFee: real := 30000.0
  const FreeShipping: string := "freeShipping"
  const TenPercentOff: string := "10PercentOff"

  /** The shipping part of the amount due. */
  function ShippingCharged(discountOptions: seq<string>): real {
    if FreeShipping in discountOptions then 0.0 else ShippingFee
  }

  /** The goods part of the amount due. */
  function GoodsCharged(subtotal: real, discountOptions: seq<string>): real {
    if TenPercentOff in discountOptions then subtotal * 9.0 / 10.0 else subtotal
  }

  /** Specification of the amount due: shipping charged plus goods charged. */
  function TotalWithDiscount(subtotal: real, discountOptions: seq<string>): real {
    ShippingCharged(discountOptions) + GoodsCharged(subtotal, discountOptions)
  }

  /** The source's step-by-step computation on a local `total`. */
  method CalculateTotalWithDiscount(subtotal: real, discountOptions: seq<string>) returns (total: real)
    ensures total == TotalWithDiscount(subtotal, discountOptions)
  {
    total := subtotal + ShippingFee;
    if FreeShipping in discountOptions {
      total := total - ShippingFee;
    }
    if TenPercentOff in discountOptions {
      total := total - subtotal * 0.1;
    }
  }

  /** Without a recognised token the amount is the subtotal plus the fee. */
  lemma NoDiscountAddsShipping(subtotal: real, discountOptions: seq<string>)
    requires FreeShipping !in discountOptions && TenPercentOff !in discountOptions
    ensures TotalWithDiscount(subtotal, discountOptions) == subtotal + 30000.0
  {
  }

  /** Only the two recognised tokens matter: lists that agree on them give the same amount. */
  lemma OnlyRecognisedTokensMatter(subtotal: real, d1: seq<string>, d2: seq<string>)
    requires (FreeShipping in d1 <==> FreeShipping in d2)
    requires (TenPercentOff in d1 <==> TenPercentOff in d2)
    ensures TotalWithDiscount(subtotal, d1) == TotalWithDiscount(subtotal, d2)
  {
  }

  /** Adding an unrecognised token never changes the amount. */
  lemma UnknownTokenIgnored(subtotal: real, d: seq<string>, token: string)
    requires token != FreeShipping && token != TenPercentOff
    ensures TotalWithDiscount(subtotal, d + [token]) == TotalWithDiscount(subtotal, d)
  {
    OnlyRecognisedTokensMatter(subtotal, d + [token], d);
  }

  /** "freeShipping" subtracts exactly the fee. */
  lemma FreeShippingWaivesFee(subtotal: real, d: seq<string>)
    requires FreeShipping !in d
    ensures TotalWithDiscount(subtotal, d + [FreeShipping]) == TotalWithDiscount(subtotal, d) - ShippingFee
  {
    OnlyRecognisedTokensMatter(subtotal, d + [FreeShipping], [FreeShipping] + d);
  }

  /** "10PercentOff" subtracts exactly a tenth of the subtotal, never of the fee. */
  lemma TenPercentOffDiscountsSubtotal(subtotal: real, d: seq<string>)
    requires TenPercentOff !in d
    ensures TotalWithDiscount(subtotal, d + [TenPercentOff]) == TotalWithDiscount(subtotal, d) - subtotal / 10.0
  {
    OnlyRecognisedTokensMatter(subtotal, d + [TenPercentOff], [TenPercentOff] + d);
  }

  /** Both tokens together leave nine tenths of the subtotal. */
  lemma BothDiscounts(subtotal: real, d: seq<string>)
    requires FreeShipping in d && TenPercentOff in d
    ensures TotalWithDiscount(subtotal, d) == 0.9 * subtotal
  {
  }

  /** For a non-negative subtotal the amount is non-negative and at most subtotal plus the fee. */
  lemma TotalBounds(subtotal: real, d: seq<string>)
    requires subtotal >= 0.0
    ensures 0.0 <= 0.9 * subtotal <= TotalWithDiscount(subtotal, d) <= subtotal + ShippingFee
  {
  }

  /** The amount is non-decreasing in the subtotal. */
  lemma TotalMonotonic(s1: real, s2: real, d: seq<string>)
    requires s1 <= s2
    ensures TotalWithDiscount(s1, d) <= TotalWithDiscount(s2, d)
  {
  }
}
