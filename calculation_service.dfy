/** The pricing engine: SNF from CLR and FAT, the per-litre rate from the
    fat and SNF prices, and the line amount. Every result is rounded to two
    decimals, and none of the functions fails on any input. */
module CalculationService {
  import opened Rounding

  /** Richmond's formula, unrounded: SNF = CLR/4 + FAT*0.2 + 0.7. */
  function Richmond(clr: real, fat: real): real
  {
    clr / 4.0 + fat * 0.2 + 0.7
  }

  /** SNF for a reading. A zero CLR or a zero FAT (a reading not yet taken)
      gives exactly 0; otherwise Richmond's formula rounded to two decimals. */
  function CalculateSNF(clr: real, fat: real): (snf: real)
    ensures IsCents(snf)
    ensures clr == 0.0 || fat == 0.0 ==> snf == 0.0
    ensures clr != 0.0 && fat != 0.0 ==> snf - 0.005 <= Richmond(clr, fat) < snf + 0.005
  {
    if clr == 0.0 || fat == 0.0 then 0.0 else Round2(Richmond(clr, fat))
  }

  /** The price-per-kilogram defaults that apply when a caller omits them. */
  const DEFAULT_FAT_PRICE: real := 620.0
  const DEFAULT_SNF_PRICE: real := 310.0

  /** Exact per-litre rate: fat and SNF percentages are kilograms per 100
      litres, each priced per kilogram. */
  function ExactRate(fat: real, snf: real, fatPricePerKg: real, snfPricePerKg: real): real
  {
    fat * fatPricePerKg / 100.0 + snf * snfPricePerKg / 100.0
  }

  /** The per-litre rate, rounded to two decimals (half a paisa from exact). */
  function CalculateMilkRate(fat: real, snf: real,
                             fatPricePerKg: real := DEFAULT_FAT_PRICE,
                             snfPricePerKg: real := DEFAULT_SNF_PRICE): (rate: real)
    ensures IsCents(rate)
    ensures rate - 0.005 <= ExactRate(fat, snf, fatPricePerKg, snfPricePerKg) < rate + 0.005
  {
    Round2(ExactRate(fat, snf, fatPricePerKg, snfPricePerKg))
  }

  /** The line amount `quantity * rate`, rounded to two decimals; nothing
      bought costs nothing. */
  function CalculateTotalAmount(quantity: real, rate: real): (amount: real)
    ensures IsCents(amount)
    ensures amount - 0.005 <= quantity * rate < amount + 0.005
    ensures quantity == 0.0 ==> amount == 0.0
  {
    assert quantity == 0.0 ==> Round2(quantity * rate) == 0.0 by {
      Round2OfCents(0.0);
    }
    Round2(quantity * rate)
  }

  /** Every result is already rounded: rounding it again changes nothing. */
  lemma PricesAreFixedPoints(clr: real, fat: real, snf: real, fp: real, sp: real, q: real, r: real)
    ensures Round2(CalculateSNF(clr, fat)) == CalculateSNF(clr, fat)
    ensures Round2(CalculateMilkRate(fat, snf, fp, sp)) == CalculateMilkRate(fat, snf, fp, sp)
    ensures Round2(CalculateTotalAmount(q, r)) == CalculateTotalAmount(q, r)
  {
    Round2OfCents(CalculateSNF(clr, fat));
    Round2OfCents(CalculateMilkRate(fat, snf, fp, sp));
    Round2OfCents(CalculateTotalAmount(q, r));
  }

  /** With non-negative prices, richer milk never earns a lower rate. */
  lemma RateMonotone(fat1: real, fat2: real, snf1: real, snf2: real, fp: real, sp: real)
    requires 0.0 <= fp && 0.0 <= sp
    requires fat1 <= fat2 && snf1 <= snf2
    ensures CalculateMilkRate(fat1, snf1, fp, sp) <= CalculateMilkRate(fat2, snf2, fp, sp)
  {
    var x, y := ExactRate(fat1, snf1, fp, sp), ExactRate(fat2, snf2, fp, sp);
    NonNegProduct(fat2 - fat1, fp);
    NonNegProduct(snf2 - snf1, sp);
    assert y - x == (fat2 - fat1) * fp / 100.0 + (snf2 - snf1) * sp / 100.0;
    Round2Monotone(x, y);
  }

  lemma NonNegProduct(a: real, b: real)
    requires 0.0 <= a && 0.0 <= b
    ensures 0.0 <= a * b
  {
  }

  /** Before rounding the rate is linear in the fat reading: the fat part
      of a rate adds up over a split of the fat reading. */
  lemma ExactRateLinearInFat(fat1: real, fat2: real, snf: real, fp: real, sp: real)
    ensures ExactRate(fat1 + fat2, snf, fp, sp) == ExactRate(fat1, snf, fp, sp) + ExactRate(fat2, 0.0, fp, sp)
  {
    assert (fat1 + fat2) * fp == fat1 * fp + fat2 * fp;
  }

  /** Before rounding the rate is linear in the SNF value. */
  lemma ExactRateLinearInSnf(fat: real, snf1: real, snf2: real, fp: real, sp: real)
    ensures ExactRate(fat, snf1 + snf2, fp, sp) == ExactRate(fat, snf1, fp, sp) + ExactRate(0.0, snf2, fp, sp)
  {
    assert (snf1 + snf2) * sp == snf1 * sp + snf2 * sp;
  }

  /** The worked example: CLR 28 and FAT 6 give SNF 8.90, a rate of 64.79
      at the default prices, and 647.90 for 10 litres. */
  lemma WorkedExample()
    ensures CalculateSNF(28.0, 6.0) == 8.9
    ensures CalculateMilkRate(6.0, 8.9) == 64.79
    ensures CalculateTotalAmount(10.0, 64.79) == 647.9
  {
    Round2OfCents(8.9);
    Round2OfCents(64.79);
    Round2OfCents(647.9);
  }
}
