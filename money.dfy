/**
 * Exact fixed-point money. A unit price is an integer number of fine units
 * (ten-thousandths of the currency unit); a line total or a grand total is an
 * integer number of cents. PHP's `round($x, 2)` rounds half away from zero.
 */
module Money {

  /** Fine units in one unit of currency. */
  const FinePerUnit: nat := 10000
  /** Fine units in one cent. */
  const FinePerCent: nat := 100

  function Abs(x: int): nat {
    if x < 0 then -x else x
  }

  /**
   * `round($x, 2)` for an amount `fine` given in fine units: the nearest
   * whole number of cents, a tie going away from zero.
   */
  function RoundToCents(fine: int): (cents: int)
    ensures fine >= 0 ==> cents * FinePerCent - 50 <= fine < cents * FinePerCent + 50
    ensures fine < 0 ==> cents * FinePerCent - 50 < fine <= cents * FinePerCent + 50
  {
    if fine >= 0 then (fine + 50) / FinePerCent else -((-fine + 50) / FinePerCent)
  }

  /** No whole number of cents is nearer to the amount than the rounded one. */
  lemma RoundToCentsIsNearest(fine: int, cents: int)
    ensures Abs(RoundToCents(fine) * FinePerCent - fine) <= Abs(cents * FinePerCent - fine)
  {
  }

  /** Rounding half away from zero treats an amount and its negation alike. */
  lemma RoundToCentsIsSymmetric(fine: int)
    ensures RoundToCents(-fine) == -RoundToCents(fine)
  {
  }

  /** A line total: `round($quantity * $unitPrice, 2)`, in cents. */
  function LineTotal(quantity: int, unitPrice: int): int {
    RoundToCents(quantity * unitPrice)
  }

  /**
   * A line total with a non-negative product is non-negative and within half
   * a cent of quantity times unit price; a zero factor gives 0.
   */
  lemma LineTotalIsRounded(quantity: int, unitPrice: int)
    ensures quantity * unitPrice >= 0 ==>
      LineTotal(quantity, unitPrice) >= 0
      && LineTotal(quantity, unitPrice) * FinePerCent - 50 <= quantity * unitPrice
      && quantity * unitPrice < LineTotal(quantity, unitPrice) * FinePerCent + 50
    ensures quantity == 0 || unitPrice == 0 ==> LineTotal(quantity, unitPrice) == 0
  {
  }

  /**
   * `round($grandTotal, 2)` applied to a sum of line totals. Every line total
   * is a whole number of cents, so in exact arithmetic the rounding changes
   * nothing.
   */
  function RoundTotal(cents: int): (rounded: int)
    ensures rounded == cents
  {
    RoundToCents(cents * FinePerCent)
  }

  /** 2 x 10.00 is 20.00, and 3 x 5.555 = 16.665 rounds up to 16.67. */
  lemma LineTotalExamples()
    ensures LineTotal(2, 10 * FinePerUnit) == 2000
    ensures LineTotal(3, 55550) == 1667
    ensures RoundToCents(-166650) == -1667
  {
  }
}
