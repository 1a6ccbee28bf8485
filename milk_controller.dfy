/** The back end's `POST /api/milk/entries`: it recomputes SNF and the
    amount on the submitted entry before saving it, so that a client cannot
    store a price of its own choosing. The per-litre rate is taken from the
    client as sent. */
module MilkController {
  import opened Types
  import opened Rounding
  import CalculationService

  /** The persisted entry bean. Its numeric fields are boxed `Double`s and
      may be null (`None`); the date is kept as its text. */
  class MilkEntryBean {
    var id: string
    var date: string
    var partyId: string
    var kind: string
    var quantity: Option<real>
    var fat: Option<real>
    var clr: Option<real>
    var snf: Option<real>
    var rate: Option<real>
    var amount: Option<real>
    var status: string

    constructor (id: string, date: string, partyId: string, kind: string,
                 quantity: Option<real>, fat: Option<real>, clr: Option<real>,
                 snf: Option<real>, rate: Option<real>, amount: Option<real>, status: string)
      ensures this.id == id && this.date == date && this.partyId == partyId && this.kind == kind
      ensures this.quantity == quantity && this.fat == fat && this.clr == clr
      ensures this.snf == snf && this.rate == rate && this.amount == amount && this.status == status
    {
      this.id, this.date, this.partyId, this.kind := id, date, partyId, kind;
      this.quantity, this.fat, this.clr := quantity, fat, clr;
      this.snf, this.rate, this.amount, this.status := snf, rate, amount, status;
    }
  }

  /** The handler's outcome: the saved entry, or the `NullPointerException`
      thrown when a null `Double` is unboxed. */
  datatype Response = Saved(entry: MilkEntryBean) | NullPointer

  /** The server's SNF, `Math.round(snf * 100.0) / 100.0` of Richmond's
      formula, with no special case for a zero reading. */
  function ServerSNF(clr: real, fat: real): (snf: real)
    ensures IsCents(snf)
    ensures snf - 0.005 <= CalculationService.Richmond(clr, fat) < snf + 0.005
  {
    MathRound((clr / 4.0 + fat * 0.2 + 0.7) * 100.0) as real / 100.0
  }

  /** The server's amount, `Math.round(quantity * rate * 100.0) / 100.0`. */
  function ServerAmount(quantity: real, rate: real): (amount: real)
    ensures IsCents(amount)
    ensures amount - 0.005 <= quantity * rate < amount + 0.005
  {
    MathRound(quantity * rate * 100.0) as real / 100.0
  }

  /** `createEntry`: overwrite `snf`, then `amount`, and save (the
      repository's `save` hands back the entry it was given). A null CLR or
      FAT throws before anything is written; a null quantity or rate throws
      after `snf` has already been overwritten. No other field is touched. */
  method CreateEntry(entry: MilkEntryBean) returns (response: Response)
    modifies entry`snf, entry`amount
    ensures (entry.clr.Some? && entry.fat.Some?)
            ==> entry.snf == Some(ServerSNF(entry.clr.value, entry.fat.value))
    ensures !(entry.clr.Some? && entry.fat.Some?) ==> entry.snf == old(entry.snf)
    ensures (entry.clr.Some? && entry.fat.Some? && entry.quantity.Some? && entry.rate.Some?)
            ==> entry.amount == Some(ServerAmount(entry.quantity.value, entry.rate.value))
    ensures !(entry.clr.Some? && entry.fat.Some? && entry.quantity.Some? && entry.rate.Some?)
            ==> entry.amount == old(entry.amount)
    ensures response == if entry.clr.Some? && entry.fat.Some? && entry.quantity.Some? && entry.rate.Some?
                        then Saved(entry) else NullPointer
  {
    if entry.clr.None? || entry.fat.None? {
      return NullPointer;
    }
    entry.snf := Some(ServerSNF(entry.clr.value, entry.fat.value));
    if entry.quantity.None? || entry.rate.None? {
      return NullPointer;
    }
    entry.amount := Some(ServerAmount(entry.quantity.value, entry.rate.value));
    return Saved(entry);
  }

  /** Where the readings are non-zero the server computes what the pricing
      engine computes, and its amount is always the engine's amount. */
  lemma ServerAgreesWithEngine(clr: real, fat: real, quantity: real, rate: real)
    ensures clr != 0.0 && fat != 0.0 ==> ServerSNF(clr, fat) == CalculationService.CalculateSNF(clr, fat)
    ensures ServerAmount(quantity, rate) == CalculationService.CalculateTotalAmount(quantity, rate)
  {
    Round2Unique(quantity * rate, ServerAmount(quantity, rate));
  }

  /** The server has no zero short-circuit: with CLR 0 and a non-negative FAT
      it stores an SNF of at least 0.70 where the engine gives 0. */
  lemma ServerIgnoresZeroClr(fat: real)
    requires 0.0 <= fat
    ensures ServerSNF(0.0, fat) >= 0.7
    ensures CalculationService.CalculateSNF(0.0, fat) == 0.0
    ensures ServerSNF(0.0, fat) != CalculationService.CalculateSNF(0.0, fat)
  {
    Round2Monotone(0.7, 0.0 / 4.0 + fat * 0.2 + 0.7);
    Round2OfCents(0.7);
  }

  /** For instance CLR 0 and FAT 6 are stored with SNF 1.90. */
  lemma ServerSnfExample()
    ensures ServerSNF(0.0, 6.0) == 1.9
  {
    Round2OfCents(1.9);
  }
}
