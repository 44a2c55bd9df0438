/**
  The fee engine of the fee calculator: the commission charged on a sale and
  the net amount the seller receives, as pure functions of the entered price
  and the two discount flags. Rates are exact decimals (Dafny `real`).
 */
module FeeEngine {

  /** The stored sale price: either nothing entered yet (or the field cleared),
      or the whole number the input was floored to. */
  datatype Price = Empty | Amount(n: int)

  /** The number the price stands for in arithmetic. An empty price (the
      initial empty array and the cleared empty string) reads as 0. */
  function PriceValue(p: Price): (v: int)
    ensures p.Amount? ==> v == p.n
    ensures p.Empty? ==> v == 0
  {
    match p
    case Empty => 0
    case Amount(n) => n
  }

  /** The factor applied to the base commission. The flags are tested in
      priority order: both set selects the combined 0.6 rate. */
  function DiscountMultiplier(discount10: bool, discount30: bool): (m: real)
    ensures 0.6 <= m <= 1.0
    ensures m == 1.0 <==> !discount10 && !discount30
    ensures discount10 && discount30 <==> m == 0.6
  {
    if discount10 && discount30 then 0.6
    else if discount10 then 0.9
    else if discount30 then 0.7
    else 1.0
  }

  /** The commission: a tenth of the price, scaled by the discount multiplier.
      It has the sign of the price and never exceeds a tenth of it in size. */
  function CalculateFee(price: Price, discount10: bool, discount30: bool): (fee: real)
    ensures PriceValue(price) >= 0 ==>
              PriceValue(price) as real * 0.06 <= fee <= PriceValue(price) as real / 10.0
    ensures PriceValue(price) <= 0 ==>
              PriceValue(price) as real / 10.0 <= fee <= PriceValue(price) as real * 0.06
    ensures fee == 0.0 <==> PriceValue(price) == 0
  {
    var baseFee := PriceValue(price) as real * 0.1;
    baseFee * DiscountMultiplier(discount10, discount30)
  }

  /** The amount received: the price less the commission. For a non-negative
      price it lies between nine tenths of the price and the price. */
  function NetAmount(price: Price, discount10: bool, discount30: bool): (net: real)
    ensures net + CalculateFee(price, discount10, discount30) == PriceValue(price) as real
    ensures PriceValue(price) >= 0 ==>
              PriceValue(price) as real * 0.9 <= net <= PriceValue(price) as real
  {
    PriceValue(price) as real - CalculateFee(price, discount10, discount30)
  }

  /** Reference table of the effective commission, in whole percent of the
      price, for each combination of the flags. */
  function CommissionPercent(discount10: bool, discount30: bool): (pct: nat)
    ensures 6 <= pct <= 10
  {
    match (discount10, discount30)
    case (false, false) => 10
    case (true, false) => 9
    case (false, true) => 7
    case (true, true) => 6
  }

  /** The fee agrees with the reference table: it is the price times the
      effective percentage, over 100, so it is always a whole number of
      hundredths. */
  lemma FeeIsCommissionPercent(price: Price, discount10: bool, discount30: bool)
    ensures CalculateFee(price, discount10, discount30)
            == (PriceValue(price) * CommissionPercent(discount10, discount30)) as real / 100.0
  {
  }

  /** The policy table of the multiplier. */
  lemma MultiplierTable()
    ensures DiscountMultiplier(true, true) == 0.6
    ensures DiscountMultiplier(true, false) == 0.9
    ensures DiscountMultiplier(false, true) == 0.7
    ensures DiscountMultiplier(false, false) == 1.0
  {
  }

  /** Both discounts together select the combined rate; they do not stack
      (0.9 * 0.7 = 0.63). For any non-zero price the fee differs from the
      stacked one. */
  lemma CombinedDiscountDoesNotStack(price: Price)
    requires PriceValue(price) != 0
    ensures CalculateFee(price, true, true)
            != CalculateFee(price, true, false) * DiscountMultiplier(false, true)
  {
  }

  /** Worked examples on a price of 1000. */
  lemma ExamplesAtThousand()
    ensures CalculateFee(Amount(1000), false, false) == 100.0 && NetAmount(Amount(1000), false, false) == 900.0
    ensures CalculateFee(Amount(1000), true, false) == 90.0 && NetAmount(Amount(1000), true, false) == 910.0
    ensures CalculateFee(Amount(1000), false, true) == 70.0 && NetAmount(Amount(1000), false, true) == 930.0
    ensures CalculateFee(Amount(1000), true, true) == 60.0 && NetAmount(Amount(1000), true, true) == 940.0
  {
  }

  /** For a fixed non-negative price, a stronger discount never gives a
      larger fee: both <= 30%-only <= 10%-only <= none; strictly so for a
      positive price. */
  lemma DiscountsAreOrdered(price: Price)
    requires PriceValue(price) >= 0
    ensures CalculateFee(price, true, true) <= CalculateFee(price, false, true)
    ensures CalculateFee(price, false, true) <= CalculateFee(price, true, false)
    ensures CalculateFee(price, true, false) <= CalculateFee(price, false, false)
    ensures PriceValue(price) > 0 ==>
              CalculateFee(price, true, true) < CalculateFee(price, false, true) < CalculateFee(price, true, false) < CalculateFee(price, false, false)
  {
  }

  /** With no price entered, the coerced arithmetic shows a fee and a net
      amount of 0, whatever the flags. */
  lemma EmptyPriceShowsZero(discount10: bool, discount30: bool)
    ensures CalculateFee(Empty, discount10, discount30) == 0.0
    ensures NetAmount(Empty, discount10, discount30) == 0.0
  {
  }
}
