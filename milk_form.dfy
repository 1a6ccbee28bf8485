/** The entry form for a purchase or a sale: a live price preview while the
    readings are typed, ordered validation on submit, the new entry handed
    to the ledger, and the readings cleared for the next entry. */
module MilkForm {
  import opened Types
  import opened Rounding
  import opened CalculationService
  import Seqs

  /** The form's fields. A numeric field is `None` when its text is empty
      or does not parse as a number (`parseFloat` gives NaN). */
  datatype FormData = FormData(partyId: string, quantity: Option<real>, fat: Option<real>, clr: Option<real>, date: string)

  /** The preview shown under the form. */
  datatype PricedLine = PricedLine(snf: real, rate: real, amount: real)

  /** `parseFloat(text) || 0`. */
  function OrZero(x: Option<real>): real
  {
    if x.Some? then x.value else 0.0
  }

  /** The fat and SNF prices per kilogram for the form's direction of trade. */
  function RatesFor(kind: TransactionType, config: AppConfig): (rates: (real, real))
    ensures kind == Sale ==> rates == (config.saleFatRate, config.saleSnfRate)
    ensures kind == Purchase ==> rates == (config.purchaseFatRate, config.purchaseSnfRate)
  {
    if kind == Sale then (config.saleFatRate, config.saleSnfRate)
    else (config.purchaseFatRate, config.purchaseSnfRate)
  }

  /** The preview effect: SNF from the readings, the rate at the form's
      prices, the amount for the quantity; a missing field counts as 0. */
  function Preview(form: FormData, kind: TransactionType, config: AppConfig): (line: PricedLine)
    ensures IsCents(line.snf) && IsCents(line.rate) && IsCents(line.amount)
    ensures line.snf == CalculateSNF(OrZero(form.clr), OrZero(form.fat))
    ensures form.clr.None? || form.fat.None? ==> line.snf == 0.0
    ensures form.quantity.None? ==> line.amount == 0.0
    ensures line.amount - 0.005 <= OrZero(form.quantity) * line.rate < line.amount + 0.005
    ensures line.rate - 0.005 <= ExactRate(OrZero(form.fat), line.snf, RatesFor(kind, config).0, RatesFor(kind, config).1)
                              < line.rate + 0.005
  {
    var fat := OrZero(form.fat);
    var clr := OrZero(form.clr);
    var qty := OrZero(form.quantity);
    var snf := CalculateSNF(clr, fat);
    var (fatRate, snfRate) := RatesFor(kind, config);
    var rate := CalculateMilkRate(fat, snf, fatRate, snfRate);
    var amount := CalculateTotalAmount(qty, rate);
    PricedLine(snf, rate, amount)
  }

  /** A form with no readings previews all zeros, whatever the prices. */
  lemma PreviewOfBlankReadings(form: FormData, kind: TransactionType, config: AppConfig)
    requires form.quantity.None? && form.fat.None? && form.clr.None?
    ensures Preview(form, kind, config) == PricedLine(0.0, 0.0, 0.0)
  {
    Round2OfCents(0.0);
  }

  /** The reasons a submit is refused, in the order they are checked. */
  datatype FormError = NoParty | QuantityNotPositive | InvalidFat

  /** The alert shown for each failed check; each check has its own text. */
  function ErrorMessage(e: FormError): (msg: string)
    ensures msg == "Please select a party" <==> e == NoParty
    ensures msg == "Quantity must be greater than 0" <==> e == QuantityNotPositive
    ensures msg == "Invalid FAT percentage" <==> e == InvalidFat
  {
    match e
    case NoParty => "Please select a party"
    case QuantityNotPositive => "Quantity must be greater than 0"
    case InvalidFat => "Invalid FAT percentage"
  }

  /** The submit checks as written. A comparison with NaN is false, so an
      empty or unparseable quantity or FAT passes them. */
  function SubmitCheckAsWritten(form: FormData): (err: Option<FormError>)
    ensures err == Some(NoParty) <==> form.partyId == ""
    ensures err == Some(QuantityNotPositive)
            <==> form.partyId != "" && form.quantity.Some? && form.quantity.value <= 0.0
    ensures err == Some(InvalidFat)
            <==> (form.partyId != "" && !(form.quantity.Some? && form.quantity.value <= 0.0)
                  && form.fat.Some? && (form.fat.value < 0.0 || form.fat.value > 15.0))
    ensures err == None
            <==> (form.partyId != "" && !(form.quantity.Some? && form.quantity.value <= 0.0)
                  && !(form.fat.Some? && (form.fat.value < 0.0 || form.fat.value > 15.0)))
  {
    if form.partyId == "" then Some(NoParty)
    else if form.quantity.Some? && form.quantity.value <= 0.0 then Some(QuantityNotPositive)
    else if form.fat.Some? && (form.fat.value < 0.0 || form.fat.value > 15.0) then Some(InvalidFat)
    else None
  }

  /** The submit checks as intended: the first of "a party is selected",
      "the quantity is a number above 0" and "FAT is a number from 0 to 15"
      that fails decides the error. */
  function SubmitCheck(form: FormData): (err: Option<FormError>)
    ensures err == Some(NoParty) <==> form.partyId == ""
    ensures err == Some(QuantityNotPositive)
            <==> form.partyId != "" && !(form.quantity.Some? && form.quantity.value > 0.0)
    ensures err == Some(InvalidFat)
            <==> (form.partyId != "" && form.quantity.Some? && form.quantity.value > 0.0
                  && !(form.fat.Some? && 0.0 <= form.fat.value <= 15.0))
    ensures err == None
            <==> (form.partyId != "" && form.quantity.Some? && form.quantity.value > 0.0
                  && form.fat.Some? && 0.0 <= form.fat.value <= 15.0)
  {
    if form.partyId == "" then Some(NoParty)
    else if !(form.quantity.Some? && form.quantity.value > 0.0) then Some(QuantityNotPositive)
    else if !(form.fat.Some? && 0.0 <= form.fat.value <= 15.0) then Some(InvalidFat)
    else None
  }

  /** The two agree whenever quantity and FAT parse. */
  lemma SubmitCheckAgreesWhenParsed(form: FormData)
    requires form.quantity.Some? && form.fat.Some?
    ensures SubmitCheckAsWritten(form) == SubmitCheck(form)
  {
  }

  /** An empty quantity field passes the checks as written but not as intended. */
  lemma BlankQuantityPassesAsWritten()
    ensures SubmitCheckAsWritten(FormData("p1", None, Some(6.0), Some(28.0), "2024-01-01")) == None
    ensures SubmitCheck(FormData("p1", None, Some(6.0), Some(28.0), "2024-01-01")) == Some(QuantityNotPositive)
  {
  }

  /** The entry recorded from a form that passed the checks. */
  function BuildEntry(form: FormData, kind: TransactionType, line: PricedLine, id: string): (e: MilkEntry)
    requires form.quantity.Some? && form.fat.Some?
    ensures e.id == id && e.date == form.date && e.partyId == form.partyId && e.kind == kind
    ensures e.quantity == form.quantity.value && e.fat == form.fat.value && e.clr == OrZero(form.clr)
    ensures e.snf == line.snf && e.rate == line.rate && e.amount == line.amount
    ensures e.status == Pending
  {
    MilkEntry(id, form.date, form.partyId, kind, form.quantity.value, form.fat.value,
              OrZero(form.clr), line.snf, line.rate, line.amount, Pending)
  }

  /** The form after a successful submit: readings cleared, party and date kept. */
  function Cleared(form: FormData): (next: FormData)
    ensures next.partyId == form.partyId && next.date == form.date
    ensures next.quantity.None? && next.fat.None? && next.clr.None?
  {
    form.(quantity := None, fat := None, clr := None)
  }

  /** The cleared form previews all zeros, ready for the next entry. */
  lemma ClearedPreviewsZero(form: FormData, kind: TransactionType, config: AppConfig)
    ensures Preview(Cleared(form), kind, config) == PricedLine(0.0, 0.0, 0.0)
  {
    PreviewOfBlankReadings(Cleared(form), kind, config);
  }

  /** An entry built from a checked form and its preview is a valid, pending
      entry whose prices are the pricing engine's for its own readings. */
  lemma SubmittedEntryIsPriced(form: FormData, kind: TransactionType, config: AppConfig, id: string)
    requires SubmitCheck(form) == None
    ensures var e := BuildEntry(form, kind, Preview(form, kind, config), id);
      && e.status == Pending && e.kind == kind && e.partyId == form.partyId && e.partyId != ""
      && e.quantity > 0.0 && 0.0 <= e.fat <= 15.0
      && e.snf == CalculateSNF(e.clr, e.fat)
      && e.rate == CalculateMilkRate(e.fat, e.snf, RatesFor(kind, config).0, RatesFor(kind, config).1)
      && e.amount == CalculateTotalAmount(e.quantity, e.rate)
  {
  }

  /** The parties offered in the selector: contractors for a purchase,
      clients for a sale, in directory order. */
  function PartyOptions(parties: seq<Party>, kind: TransactionType): (options: seq<Party>)
    ensures forall p :: p in options <==> p in parties && p.kind == (if kind == Purchase then Contractor else Client)
    ensures forall p :: multiset(options)[p]
                        == if p.kind == (if kind == Purchase then Contractor else Client) then multiset(parties)[p] else 0
    ensures Seqs.IsSubsequence(options, parties)
  {
    var wanted := if kind == Purchase then Contractor else Client;
    Seqs.FilterIsSubsequence((p: Party) => p.kind == wanted, parties);
    Seqs.FilterCounts((p: Party) => p.kind == wanted, parties);
    Seqs.Filter((p: Party) => p.kind == wanted, parties)
  }

  /** The form component's state. */
  class EntryForm {
    const kind: TransactionType
    const config: AppConfig
    var formData: FormData
    var calcResult: PricedLine
    var error: string

    /** The preview effect has run since the last change of the fields. */
    ghost predicate Valid()
      reads this
    {
      calcResult == Preview(formData, kind, config)
    }

    constructor (kind: TransactionType, config: AppConfig, today: string)
      ensures Valid()
      ensures this.kind == kind && this.config == config
      ensures formData == FormData("", None, None, None, today) && error == ""
    {
      this.kind, this.config := kind, config;
      formData := FormData("", None, None, None, today);
      calcResult := PricedLine(0.0, 0.0, 0.0);
      error := "";
      PreviewOfBlankReadings(FormData("", None, None, None, today), kind, config);
    }

    /** A change of the fields, followed by the preview effect. */
    method Edit(data: FormData)
      modifies this
      ensures Valid()
      ensures formData == data && error == old(error)
    {
      formData := data;
      calcResult := Preview(formData, kind, config);
    }

    /** `handleSubmit`: clear the error, run the checks in order, and either
      set the first failing check's message and stop, or hand one pending
      entry with the previewed prices to the ledger and clear the readings. */
    method HandleSubmit(newId: string) returns (emitted: Option<MilkEntry>)
      requires Valid()
      modifies this
      ensures Valid()
      ensures SubmitCheck(old(formData)).Some? ==>
                && emitted == None
                && error == ErrorMessage(SubmitCheck(old(formData)).value)
                && formData == old(formData)
      ensures SubmitCheck(old(formData)).None? ==>
                && emitted == Some(BuildEntry(old(formData), kind, old(calcResult), newId))
                && error == ""
                && formData == Cleared(old(formData))
    {
      error := "";
      if formData.partyId == "" {
        error := ErrorMessage(NoParty);
        return None;
      }
      if !(formData.quantity.Some? && formData.quantity.value > 0.0) {
        error := ErrorMessage(QuantityNotPositive);
        return None;
      }
      if !(formData.fat.Some? && 0.0 <= formData.fat.value <= 15.0) {
        error := ErrorMessage(InvalidFat);
        return None;
      }
      var entry := BuildEntry(formData, kind, calcResult, newId);
      emitted := Some(entry);
      formData := Cleared(formData);
      calcResult := Preview(formData, kind, config);
    }
  }
}
