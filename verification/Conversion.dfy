/** go/internal/currency/service.go: what a change of the group currency does to one commodity. Amounts are exact decimals. */
module Conversion {
  import opened Basics

  type Currency = string

  /** A commodity's money fields; the two acquisition columns are nullable. */
  datatype Commodity = Commodity(
    id: nat,
    originalPrice: real,
    originalCurrency: Currency,
    convertedOriginalPrice: real,
    currentPrice: real,
    acquisitionPrice: Option<real>,
    acquisitionCurrency: Option<Currency>)

  datatype RowImage = RowImage(originalPrice: real, originalCurrency: Currency, convertedOriginalPrice: real, currentPrice: real)

  datatype Case = CaseA | CaseB | CaseC

  datatype ApplyResult = ApplyResult(outcome: Case, before: RowImage, after: RowImage, fillAcquisition: bool)

  function Magnitude(x: real): real {
    if x < 0.0 then -x else x
  }

  /** Two decimal places, half away from zero. */
  function Quantize(x: real): real {
    if x < 0.0 then -(((-x * 100.0 + 0.5).Floor as real) / 100.0) else ((x * 100.0 + 0.5).Floor as real) / 100.0
  }

  /** One amount at the rate, rounded. */
  function Scaled(amount: real, rate: real): real {
    Quantize(amount * rate)
  }

  function ImageOf(c: Commodity): RowImage {
    RowImage(c.originalPrice, c.originalCurrency, c.convertedOriginalPrice, c.currentPrice)
  }

  function ApplyConversion(c: Commodity, from: Currency, to: Currency, rate: real): ApplyResult {
    var current := Scaled(c.currentPrice, rate);
    if c.originalCurrency == from then
      ApplyResult(CaseA, ImageOf(c), RowImage(Scaled(c.originalPrice, rate), to, 0.0, current),
                  c.acquisitionPrice.None? && c.acquisitionCurrency.None?)
    else if c.originalCurrency == to then
      ApplyResult(CaseC, ImageOf(c), RowImage(c.originalPrice, c.originalCurrency, 0.0, current), false)
    else
      ApplyResult(CaseB, ImageOf(c),
                  RowImage(c.originalPrice, c.originalCurrency, Scaled(c.convertedOriginalPrice, rate), current), false)
  }

  // ---- rounding ----

  ghost predicate WholeCents(x: real) {
    exists k: int :: x == Cents(k)
  }

  function Cents(k: int): real {
    k as real / 100.0
  }

  /** Quantize gives the nearest whole number of cents and, of two equally near, the one further from zero. */
  lemma QuantizeIsNearest(x: real)
    ensures WholeCents(Quantize(x))
    ensures Magnitude(Quantize(x) - x) <= 0.005
    ensures Magnitude(Quantize(x) - x) == 0.005 ==> Magnitude(Quantize(x)) >= Magnitude(x)
  {
    var n := (Magnitude(x) * 100.0 + 0.5).Floor;
    assert Quantize(x) == if x < 0.0 then Cents(-n) else Cents(n);
  }

  /** Whole cents stay put, and order is kept: a dearer commodity is not converted to a cheaper one. */
  lemma QuantizeKeepsOrder(x: real, y: real, k: int)
    ensures Quantize(Cents(k)) == Cents(k)
    ensures x <= y ==> Quantize(x) <= Quantize(y)
    ensures Quantize(-x) == -Quantize(x)
  {
    assert Cents(k) * 100.0 == k as real;
    assert ((if k < 0 then -k else k) as real + 0.5).Floor == if k < 0 then -k else k;
    if x <= y {
      if 0.0 <= x {
        assert (x * 100.0 + 0.5).Floor <= (y * 100.0 + 0.5).Floor;
      } else if y < 0.0 {
        assert (-y * 100.0 + 0.5).Floor <= (-x * 100.0 + 0.5).Floor;
      } else {
        assert 0 <= (-x * 100.0 + 0.5).Floor && 0 <= (y * 100.0 + 0.5).Floor;
      }
    }
  }

  // ---- the price rule ----

  /** An amount bought in the group currency carries no converted original price. */
  predicate PriceRule(image: RowImage, group: Currency) {
    image.originalCurrency == group ==> image.convertedOriginalPrice == 0.0
  }

  /**
   Whatever the row was before, afterwards it satisfies the price rule of the new currency,
   nothing is denominated in the old one, an amount in a third currency is untouched, and a
   first-time overwrite is the one case in which the purchase amount is kept aside.
   */
  lemma ConversionMeetsPriceRule(c: Commodity, from: Currency, to: Currency, rate: real)
    requires from != to
    ensures var r := ApplyConversion(c, from, to, rate);
      && PriceRule(r.after, to)
      && r.after.originalCurrency != from
      && (c.originalCurrency != from ==> r.after.originalPrice == c.originalPrice && r.after.originalCurrency == c.originalCurrency)
      && (r.fillAcquisition <==> c.originalCurrency == from && c.acquisitionPrice.None? && c.acquisitionCurrency.None?)
      && r.before == ImageOf(c)
  {
  }

  /** In all three cases the current price is scaled by the rate, to within half a cent. */
  lemma CurrentPriceIsScaled(c: Commodity, from: Currency, to: Currency, rate: real)
    ensures Magnitude(ApplyConversion(c, from, to, rate).after.currentPrice - c.currentPrice * rate) <= 0.005
  {
    QuantizeIsNearest(c.currentPrice * rate);
  }

  /** An amount in the old currency is scaled into the new one, to within half a cent. */
  lemma OriginalPriceIsScaled(c: Commodity, from: Currency, to: Currency, rate: real)
    requires c.originalCurrency == from
    ensures Magnitude(ApplyConversion(c, from, to, rate).after.originalPrice - c.originalPrice * rate) <= 0.005
  {
    QuantizeIsNearest(c.originalPrice * rate);
  }

  /** For an amount in a third currency, the converted amount is. */
  lemma ConvertedPriceIsScaled(c: Commodity, from: Currency, to: Currency, rate: real)
    requires c.originalCurrency != from && c.originalCurrency != to
    ensures Magnitude(ApplyConversion(c, from, to, rate).after.convertedOriginalPrice - c.convertedOriginalPrice * rate) <= 0.005
  {
    QuantizeIsNearest(c.convertedOriginalPrice * rate);
  }

  /** What is not scaled is kept or zero, case by case. */
  lemma OtherAmountsAreKept(c: Commodity, from: Currency, to: Currency, rate: real)
    ensures var r := ApplyConversion(c, from, to, rate);
      if c.originalCurrency == from then
        r.outcome.CaseA? && r.after.originalCurrency == to && r.after.convertedOriginalPrice == 0.0
      else if c.originalCurrency == to then
        r.outcome.CaseC? && r.after.originalCurrency == to && r.after.originalPrice == c.originalPrice && r.after.convertedOriginalPrice == 0.0
      else
        r.outcome.CaseB? && r.after.originalCurrency == c.originalCurrency && r.after.originalPrice == c.originalPrice
  {
  }

  const MAX_RATE: real := 10_000_000_000.0

  predicate ValidRate(rate: real) {
    0.0 < rate <= MAX_RATE
  }
}
