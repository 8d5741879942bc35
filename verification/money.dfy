/** Money as integers. Stored prices and every reported amount are in cents;
    the unrounded 10% tax and the unrounded total are in mills (tenths of a
    cent), where they are exact. `toFixed(2)` becomes `RoundToCents`. */
module Money {

  /** Rounds an amount in mills to the nearest cent, halves away from zero:
      the rule `Number.prototype.toFixed(2)` applies to an exactly
      representable decimal. */
  function RoundToCents(mills: int): (cents: int)
    ensures mills >= 0 ==> 10 * cents - 5 <= mills < 10 * cents + 5
    ensures mills < 0 ==> 10 * cents - 5 < mills <= 10 * cents + 5
  {
    if mills >= 0 then (mills + 5) / 10 else -((-mills + 5) / 10)
  }

  /** A whole number of cents rounds to itself. */
  lemma RoundWholeCents(cents: int)
    ensures RoundToCents(10 * cents) == cents
  {
  }

  /** Adding whole cents before rounding is adding them after rounding. */
  lemma RoundAddWholeCents(cents: int, mills: int)
    requires (cents >= 0 && mills >= 0) || (cents <= 0 && mills <= 0)
    ensures RoundToCents(10 * cents + mills) == cents + RoundToCents(mills)
  {
  }
}
