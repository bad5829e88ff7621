/** How far figures that are rounded at different points can end up apart. */
module Drift {
  import opened Wrappers
  import opened Rounding
  import opened Money
  import S = Statement
  import P = BillingPipeline
  import Q = Quotation

  function Scaled(figures: seq<int>, factor: int): seq<int> {
    seq(|figures|, i requires 0 <= i < |figures| => figures[i] * factor)
  }

  lemma {:induction false} SumOfScaled(figures: seq<int>, factor: int)
    ensures Sum(Scaled(figures, factor)) == Sum(figures) * factor
  {
    if figures != [] {
      var k := |figures| - 1;
      SumOfScaled(figures[..k], factor);
      assert Scaled(figures, factor)[..k] == Scaled(figures[..k], factor);
      Distribute(Sum(figures[..k]), figures[k], factor);
    }
  }

  /** Rounding a part of each figure and adding, or rounding that part of the sum, differs by at most (n+1)/2. */
  lemma {:induction false} EachOrAll(figures: seq<int>, factor: int, divisor: int, parts: seq<int>, whole: int)
    requires divisor > 0 && RoundedEach(Scaled(figures, factor), divisor, parts)
    requires NearestHalfAway(Sum(figures) * factor, divisor, whole)
    ensures 2 * Abs(Sum(parts) - whole) <= |figures| + 1
  {
    SumOfScaled(figures, factor);
    RoundingDrift(Scaled(figures, factor), divisor, parts, whole);
  }

  lemma VatIsRounded(lines: seq<Q.QuotationLine>, basisPoints: int)
    requires forall i :: 0 <= i < |lines| ==> lines[i].vatBasisPoints == Some(basisPoints)
    ensures RoundedEach(Scaled(Q.Each(lines, Q.LineNet), basisPoints), BASIS_POINTS, Q.Each(lines, Q.LineVat))
  {
    forall i | 0 <= i < |lines| ensures NearestHalfAway(Q.LineNet(lines[i]) * basisPoints, BASIS_POINTS, Q.LineVat(lines[i])) {
      DivideIsNearest(Q.LineNet(lines[i]) * basisPoints, BASIS_POINTS);
    }
  }

  /** A quotation rounds its VAT per line and an invoice once on the net; the two stay this close. */
  lemma VatByLineOrOnTotal(lines: seq<Q.QuotationLine>, basisPoints: int)
    requires forall i :: 0 <= i < |lines| ==> lines[i].vatBasisPoints == Some(basisPoints)
    ensures 2 * Abs(Q.VatTotal(lines) - Percentage(Q.Net(lines), basisPoints)) <= |lines| + 1
  {
    VatIsRounded(lines, basisPoints);
    DivideIsNearest(Q.Net(lines) * basisPoints, BASIS_POINTS);
    EachOrAll(Q.Each(lines, Q.LineNet), basisPoints, BASIS_POINTS, Q.Each(lines, Q.LineVat), Percentage(Q.Net(lines), basisPoints));
  }

  function EachPriced(durations: seq<int>, perHour: int): seq<int> {
    seq(|durations|, i requires 0 <= i < |durations| => AmountFor(perHour, durations[i]))
  }

  lemma Commute(a: int, b: int)
    ensures a * b == b * a
  {}

  lemma PriceIsRounded(seconds: int, perHour: int)
    ensures NearestHalfAway(seconds * perHour, SECONDS_PER_HOUR, AmountFor(perHour, seconds))
  {
    Commute(seconds, perHour);
    DivideIsNearest(perHour * seconds, SECONDS_PER_HOUR);
  }

  lemma PricesAreRounded(durations: seq<int>, perHour: int)
    ensures RoundedEach(Scaled(durations, perHour), SECONDS_PER_HOUR, EachPriced(durations, perHour))
  {
    forall i | 0 <= i < |durations|
      ensures NearestHalfAway(durations[i] * perHour, SECONDS_PER_HOUR, AmountFor(perHour, durations[i]))
    {
      PriceIsRounded(durations[i], perHour);
    }
  }

  /** Time billed piece by piece, or as one. */
  lemma {:induction false} PiecesOrWhole(durations: seq<int>, perHour: int, whole: int)
    requires whole == AmountFor(perHour, Sum(durations))
    ensures 2 * Abs(Sum(EachPriced(durations, perHour)) - whole) <= |durations| + 1
  {
    PricesAreRounded(durations, perHour);
    PriceIsRounded(Sum(durations), perHour);
    EachOrAll(durations, perHour, SECONDS_PER_HOUR, EachPriced(durations, perHour), whole);
  }

  // ----- Printed quantity times rate against the amount -----

  /** A quantity in hundredths of an hour, at a rate, against the time itself at that rate. */
  lemma HundredthsAreClose(centi: int, seconds: int, rate: int, amount: int)
    requires rate >= 0
    requires -3600 <= 2 * (seconds * 100 - centi * 3600) <= 3600
    requires 2 * Abs(amount * 3600 - rate * seconds) <= 3600
    ensures Abs(2 * centi * rate - 200 * amount) <= rate + 100
  {
    Between(rate, seconds * 100 - centi * 3600, 1800);
    Spread(centi, seconds, rate);
    ProductsAreClose(centi * rate, rate * seconds, rate, amount);
    Doubled(centi, rate);
  }

  lemma Spread(centi: int, seconds: int, rate: int)
    ensures rate * (seconds * 100 - centi * 3600) == rate * seconds * 100 - centi * rate * 3600
  {
    Distribute(seconds * 100, -(centi * 3600), rate);
  }

  lemma Doubled(centi: int, rate: int)
    ensures 2 * centi * rate == 2 * (centi * rate)
  {}

  lemma ProductsAreClose(printed: int, worked: int, rate: int, amount: int)
    requires -1800 * rate <= worked * 100 - printed * 3600 <= 1800 * rate
    requires 2 * Abs(amount * 3600 - worked) <= 3600
    ensures Abs(2 * printed - 200 * amount) <= rate + 100
  {}

  lemma Between(rate: int, off: int, limit: int)
    requires rate >= 0 && -limit <= off <= limit
    ensures -limit * rate <= rate * off <= limit * rate
  {
    assert rate * (limit - off) >= 0 && rate * (off + limit) >= 0;
  }

  /**
    The Qty and Rate a document prints reach its amount: exactly for a fee, for an adjusted line and
    for an hourly line of too little time to print; and otherwise to within rate/200 and a half.
   */
  lemma PrintedReachesAmount(line: S.StatementLine, currency: Currency)
    requires S.SoundLine(line, currency) && !line.excluded
    ensures var (centi, unit) := P.PrintedAs(line); centi > 0 && unit.currency == currency
    ensures var (centi, unit) := P.PrintedAs(line);
            && Abs(2 * centi * unit.minor - 200 * S.LineAmount(line)) <= unit.minor + 100
            && (line.pricing.Fixed? || line.adjustedTo.Some? || line.worked < 18 ==>
                  centi * unit.minor == 100 * S.LineAmount(line))
  {
    var (centi, unit) := P.PrintedAs(line);
    S.AmountIsNonNegative(line, currency);
    var hundredths := RoundHalfUp(line.worked * 100, SECONDS_PER_HOUR);
    HalfUpBounds(line.worked * 100, SECONDS_PER_HOUR, hundredths);
    if line.pricing.Hourly? && line.adjustedTo.None? && hundredths > 0 {
      DivideIsNearest(line.pricing.perHour.minor * line.worked, SECONDS_PER_HOUR);
      HundredthsAreClose(centi, line.worked, unit.minor, S.LineAmount(line));
    }
  }
}
