/** The ledger's state: the entry list (newest first), the party directory,
    the new-party inputs, and the views the pages derive from them. */
module App {
  import opened Types
  import Seqs

  /** The predicate "the entry's id is not `id`". */
  function IdIsNot(id: string): MilkEntry -> bool
  {
    (e: MilkEntry) => e.id != id
  }

  /** The entries left after deleting `id`: `entries.filter(e => e.id !== id)`. */
  function WithoutId(entries: seq<MilkEntry>, id: string): (kept: seq<MilkEntry>)
    ensures forall e :: e in kept <==> e in entries && e.id != id
    ensures forall e :: multiset(kept)[e] == if e.id != id then multiset(entries)[e] else 0
    ensures Seqs.IsSubsequence(kept, entries)
  {
    Seqs.FilterIsSubsequence(IdIsNot(id), entries);
    Seqs.FilterCounts(IdIsNot(id), entries);
    Seqs.Filter(IdIsNot(id), entries)
  }

  /** Deleting an id that no entry has changes nothing. */
  lemma DeleteAbsentIsIdentity(entries: seq<MilkEntry>, id: string)
    requires forall i :: 0 <= i < |entries| ==> entries[i].id != id
    ensures WithoutId(entries, id) == entries
  {
    Seqs.FilterKeepsAll(IdIsNot(id), entries);
  }

  /** Deleting the entry just added, when its id was new, restores the list. */
  lemma DeleteUndoesAdd(entries: seq<MilkEntry>, entry: MilkEntry)
    requires forall i :: 0 <= i < |entries| ==> entries[i].id != entry.id
    ensures WithoutId([entry] + entries, entry.id) == entries
  {
    Seqs.FilterAppend(IdIsNot(entry.id), [entry], entries);
    assert Seqs.Filter(IdIsNot(entry.id), [entry]) == Seqs.Filter(IdIsNot(entry.id), [entry][..0]);
    DeleteAbsentIsIdentity(entries, entry.id);
  }

  /** The predicate "the entry is of type `t`". */
  function KindIs(t: TransactionType): MilkEntry -> bool
  {
    (e: MilkEntry) => e.kind == t
  }

  /** The entries of one type, in ledger order (the Collections and Bulk Sales pages). */
  function OfType(entries: seq<MilkEntry>, t: TransactionType): (view: seq<MilkEntry>)
    ensures forall e :: e in view <==> e in entries && e.kind == t
    ensures forall e :: multiset(view)[e] == if e.kind == t then multiset(entries)[e] else 0
    ensures Seqs.IsSubsequence(view, entries)
  {
    Seqs.FilterIsSubsequence(KindIs(t), entries);
    Seqs.FilterCounts(KindIs(t), entries);
    Seqs.Filter(KindIs(t), entries)
  }

  /** Every entry is in exactly one of the two views. */
  lemma {:induction false} ViewsPartition(entries: seq<MilkEntry>)
    ensures |OfType(entries, Purchase)| + |OfType(entries, Sale)| == |entries|
    decreases |entries|
  {
    if entries != [] {
      ViewsPartition(entries[..|entries| - 1]);
    }
  }

  /** The dashboard's recent stream: the first eight entries. */
  function RecentStream(entries: seq<MilkEntry>): (recent: seq<MilkEntry>)
    ensures |recent| == if |entries| < 8 then |entries| else 8
    ensures forall i :: 0 <= i < |recent| ==> recent[i] == entries[i]
  {
    if |entries| < 8 then entries else entries[..8]
  }

  /** The predicate "the party is a contractor". */
  function IsContractor(p: Party): bool
  {
    p.kind == Contractor
  }

  /** The number of contractors in the directory. */
  function ContractorsCount(parties: seq<Party>): (n: nat)
    ensures n <= |parties|
    ensures n == 0 <==> forall i :: 0 <= i < |parties| ==> parties[i].kind != Contractor
  {
    var cs := Seqs.Filter(IsContractor, parties);
    assert forall i :: 0 <= i < |parties| && parties[i].kind == Contractor ==> parties[i] in cs;
    assert |cs| > 0 ==> cs[0] in cs;
    |cs|
  }

  /** Registering a party raises the contractor count by one exactly when it is a contractor. */
  lemma AddPartyCount(parties: seq<Party>, p: Party)
    ensures ContractorsCount(parties + [p]) == ContractorsCount(parties) + (if p.kind == Contractor then 1 else 0)
  {
    Seqs.FilterAppend(IsContractor, parties, [p]);
    assert Seqs.Filter(IsContractor, [p]) == Seqs.Filter(IsContractor, [p][..0]) + (if IsContractor(p) then [p] else []);
  }

  /** The party registered from the new-party inputs. */
  function NewParty(id: string, name: string, kind: PartyType, village: string): (p: Party)
    ensures p.id == id && p.name == name && p.kind == kind
    ensures p.contact == "" && p.village == Some(village)
  {
    Party(id, name, "", kind, Some(village))
  }

  class Ledger {
    var entries: seq<MilkEntry>
    var parties: seq<Party>
    var config: AppConfig
    var newPartyName: string
    var newPartyType: PartyType
    var newPartyVillage: string

    constructor ()
      ensures entries == [] && parties == [] && config == DEFAULT_CONFIG
      ensures newPartyName == "" && newPartyType == Contractor && newPartyVillage == ""
    {
      entries, parties, config := [], [], DEFAULT_CONFIG;
      newPartyName, newPartyType, newPartyVillage := "", Contractor, "";
    }

    /** `handleAddEntry`: the saved entry (the save returns what it was
        given) goes first, the earlier entries follow in their order. */
    method HandleAddEntry(entry: MilkEntry)
      modifies this`entries
      ensures entries == [entry] + old(entries)
    {
      entries := [entry] + entries;
    }

    /** `handleDeleteEntry`: drop every entry with this id. */
    method HandleDeleteEntry(id: string)
      modifies this`entries
      ensures entries == WithoutId(old(entries), id)
    {
      entries := WithoutId(entries, id);
    }

    /** `handleAddParty`: with an empty name nothing happens; otherwise one
        party is appended with contact '' and the name and village inputs
        are cleared, the category kept. */
    method HandleAddParty(newId: string)
      modifies this`parties, this`newPartyName, this`newPartyVillage
      ensures old(newPartyName) == "" ==>
                parties == old(parties) && newPartyName == old(newPartyName) && newPartyVillage == old(newPartyVillage)
      ensures old(newPartyName) != "" ==>
                && parties == old(parties) + [NewParty(newId, old(newPartyName), newPartyType, old(newPartyVillage))]
                && newPartyName == "" && newPartyVillage == ""
      ensures newPartyType == old(newPartyType)
    {
      if newPartyName == "" {
        return;
      }
      var party := NewParty(newId, newPartyName, newPartyType, newPartyVillage);
      parties := parties + [party];
      newPartyName := "";
      newPartyVillage := "";
    }
  }
}
