/** The pricing rule the cart page and the checkout page both apply to the cart total: free
    shipping from 100 up, otherwise 9.99; tax at 8%; the grand total is the sum of the three. */
module Pricing {
  import opened Js

  const FreeShippingFrom: real := 100.0
  const FlatShipping: real := 9.99
  const TaxRate: real := 0.08

  /** `total >= 100 ? 0 : 9.99`: a NaN total fails the comparison and pays shipping. */
  function Shipping(total: Number): (r: real)
    ensures r == 0.0 <==> total.Fin? && total.r >= FreeShippingFrom
    ensures r != 0.0 ==> r == FlatShipping
  {
    if LessEq(Fin(FreeShippingFrom), total) then 0.0 else FlatShipping
  }

  /** `total * 0.08` */
  function Tax(total: Number): (r: Number)
    ensures r.Fin? <==> total.Fin?
    ensures total.Fin? && total.r >= 0.0 ==> 0.0 <= r.r <= total.r
    ensures total.Fin? && total.r < 0.0 ==> total.r <= r.r < 0.0
  {
    Mul(total, Fin(TaxRate))
  }

  /** `total + shipping + tax` */
  function FinalTotal(total: Number): (r: Number)
    ensures r.Fin? <==> total.Fin?
    ensures total.Fin? && total.r >= FreeShippingFrom ==> r == Fin(total.r * 1.08)
    ensures total.Fin? && total.r < FreeShippingFrom ==> r == Fin(total.r * 1.08 + FlatShipping)
  {
    Add(Add(total, Fin(Shipping(total))), Tax(total))
  }

  /** The grand total never falls below the subtotal of a cart that is not negative. */
  lemma FinalTotalCoversSubtotal(total: real)
    requires total >= 0.0
    ensures FinalTotal(Fin(total)).r >= total
  {
  }

  /** The threshold makes the grand total drop as the subtotal crosses it: a subtotal of 99
      costs 116.91 in all, one of 100 costs 108. */
  lemma ShippingCliff()
    ensures FinalTotal(Fin(99.0)) == Fin(116.91)
    ensures FinalTotal(Fin(100.0)) == Fin(108.0)
    ensures FinalTotal(Fin(99.0)).r > FinalTotal(Fin(100.0)).r
  {
  }

  /** Above the threshold the grand total grows with the subtotal, and so it does below it. */
  lemma FinalTotalMonotoneOnEachSide(a: real, b: real)
    requires a <= b
    requires (a >= FreeShippingFrom) == (b >= FreeShippingFrom)
    ensures FinalTotal(Fin(a)).r <= FinalTotal(Fin(b)).r
  {
  }
}
