/** The ledger's records: parties, milk entries, the rate configuration. */
module Types {

  datatype Option<T> = None | Some(value: T)

  /** A purchase from a contractor or a sale to a client. */
  datatype TransactionType = Purchase | Sale

  datatype PartyType = Contractor | Client

  /** Settlement status of an entry. */
  datatype Status = Pending | Paid

  /** A contractor or client; `village` is optional. */
  datatype Party = Party(id: string, name: string, contact: string, kind: PartyType, village: Option<string>)

  /** One recorded transaction. Quantity is in litres, rate is per litre. */
  datatype MilkEntry = MilkEntry(
    id: string,
    date: string,
    partyId: string,
    kind: TransactionType,
    quantity: real,
    fat: real,
    clr: real,
    snf: real,
    rate: real,
    amount: real,
    status: Status)

  /** An entry's litres and its amount, as weights for sums. */
  const Quantity: MilkEntry -> real := (e: MilkEntry) => e.quantity
  const Amount: MilkEntry -> real := (e: MilkEntry) => e.amount

  /** Price per kilogram of fat and of SNF, for each direction of trade. */
  datatype AppConfig = AppConfig(purchaseFatRate: real, purchaseSnfRate: real, saleFatRate: real, saleSnfRate: real)

  const DEFAULT_CONFIG := AppConfig(620.0, 310.0, 750.0, 380.0)

  /** The first party whose id is `id` (`parties.find(p => p.id === id)`). */
  function FindParty(parties: seq<Party>, id: string): (r: Option<Party>)
    ensures r.None? <==> forall i :: 0 <= i < |parties| ==> parties[i].id != id
    ensures r.Some? ==> exists i :: 0 <= i < |parties| && parties[i] == r.value && r.value.id == id
                                    && forall j :: 0 <= j < i ==> parties[j].id != id
  {
    if parties == [] then None
    else if parties[0].id == id then Some(parties[0])
    else
      var r := FindParty(parties[1..], id);
      assert forall i :: 1 <= i < |parties| ==> parties[i] == parties[1..][i - 1];
      r
  }

  /** Appending a party leaves every existing lookup alone, and makes its own
      id resolve to it when that id was not yet taken. */
  lemma {:induction false} FindPartyAppend(parties: seq<Party>, p: Party, id: string)
    ensures FindParty(parties + [p], id)
         == if FindParty(parties, id).Some? then FindParty(parties, id)
            else if p.id == id then Some(p) else None
    decreases |parties|
  {
    if parties != [] {
      assert (parties + [p])[1..] == parties[1..] + [p];
      FindPartyAppend(parties[1..], p, id);
    }
  }
}
