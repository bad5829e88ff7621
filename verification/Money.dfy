/** Amounts in minor units, hourly rates and percentages. */
module Money {
  import opened Rounding

  datatype Currency = AED | USD | EUR | GBP | SAR

  datatype Money = Money(minor: int, currency: Currency)

  const SECONDS_PER_HOUR: int := 3600
  const BASIS_POINTS: int := 10_000

  function ScaleByRatio(minor: int, numerator: int, denominator: int): int
    requires denominator != 0
  {
    DivideHalfAway(minor * numerator, denominator)
  }

  /** Seconds charged by the hour, rounded to the minor unit. */
  function AmountFor(perHour: int, seconds: int): int {
    ScaleByRatio(perHour, seconds, SECONDS_PER_HOUR)
  }

  function Percentage(minor: int, basisPoints: int): int {
    ScaleByRatio(minor, basisPoints, BASIS_POINTS)
  }

  lemma ScaledIsNonNegative(minor: int, numerator: int, denominator: int)
    requires minor >= 0 && numerator >= 0 && denominator > 0
    ensures ScaleByRatio(minor, numerator, denominator) >= 0
  {
    assert minor * numerator >= 0;
  }

  /** A percentage of at most the whole is never more than the whole. */
  lemma PercentageIsPart(minor: int, basisPoints: int)
    requires minor >= 0 && 0 <= basisPoints <= BASIS_POINTS
    ensures 0 <= Percentage(minor, basisPoints) <= minor
  {
    ScaledIsNonNegative(minor, basisPoints, BASIS_POINTS);
    assert minor * basisPoints <= minor * BASIS_POINTS;
    HalfAwayIsMonotone(minor * basisPoints, minor * BASIS_POINTS, BASIS_POINTS);
    ExactDivision(minor, BASIS_POINTS);
  }
}
