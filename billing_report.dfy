/** Party-wise settlement: the entries are grouped by party id, each group's
    quantity, amount and count are summed, and only the groups that belong
    to a known party are shown. */
module BillingReport {
  import opened Types
  import Seqs

  /** The running totals kept for one party id. */
  datatype PartyTotals = PartyTotals(partyId: string, qty: real, amt: real, count: nat)

  /** One settlement card: the party and its totals. */
  datatype ReportRow = ReportRow(party: Party, qty: real, amt: real, count: nat)

  const PartyOf: MilkEntry -> string := (e: MilkEntry) => e.partyId
  const One: MilkEntry -> real := (e: MilkEntry) => 1.0

  /** The entries of one party, in ledger order. */
  function EntriesOf(id: string, entries: seq<MilkEntry>): (mine: seq<MilkEntry>)
    ensures forall e :: e in mine <==> e in entries && e.partyId == id
  {
    Seqs.Filter(Seqs.KeyIs(PartyOf, id), entries)
  }

  /** What the totals of party `id` are over `entries`, by definition. */
  function TotalsFor(id: string, entries: seq<MilkEntry>): PartyTotals
  {
    var mine := EntriesOf(id, entries);
    PartyTotals(id, Seqs.Sum(Quantity, mine), Seqs.Sum(Amount, mine), |mine|)
  }

  /** The party ids in order of first appearance. */
  function PartyIds(entries: seq<MilkEntry>): seq<string>
  {
    Seqs.Keys(PartyOf, entries)
  }

  /** One entry added to a party's running totals. */
  function Bump(t: PartyTotals, e: MilkEntry): PartyTotals
  {
    t.(qty := t.qty + e.quantity, amt := t.amt + e.amount, count := t.count + 1)
  }

  /** One more entry changes its own party's totals by itself and no other party's. */
  lemma TotalsSnoc(s: seq<MilkEntry>, e: MilkEntry, k: string)
    ensures TotalsFor(k, s + [e]) == if e.partyId == k then Bump(TotalsFor(k, s), e) else TotalsFor(k, s)
  {
    assert (s + [e])[..|s|] == s;
  }

  /** An id not yet seen has all-zero totals. */
  lemma UnseenTotals(s: seq<MilkEntry>, id: string)
    requires id !in PartyIds(s)
    ensures TotalsFor(id, s) == PartyTotals(id, 0.0, 0.0, 0)
  {
    Seqs.AbsentKeySelectsNothing(PartyOf, id, s);
  }

  /** The party ids of one more entry: its id is added at the end if it is new. */
  lemma PartyIdsSnoc(s: seq<MilkEntry>, e: MilkEntry)
    ensures PartyIds(s + [e]) == if e.partyId in PartyIds(s) then PartyIds(s) else PartyIds(s) + [e.partyId]
  {
    assert (s + [e])[..|s|] == s;
  }

  /** The dictionary after one turn of the `forEach` of `reportData`: the
      party's totals created if they are missing, then bumped with the entry.
      No other party's totals change. */
  function GroupNext(acc: map<string, PartyTotals>, e: MilkEntry): (next: map<string, PartyTotals>)
    ensures next.Keys == acc.Keys + {e.partyId}
    ensures next[e.partyId]
            == Bump(if e.partyId in acc then acc[e.partyId] else PartyTotals(e.partyId, 0.0, 0.0, 0), e)
    ensures forall k :: k in acc && k != e.partyId ==> next[k] == acc[k]
  {
    var created := if e.partyId in acc then acc else acc[e.partyId := PartyTotals(e.partyId, 0.0, 0.0, 0)];
    created[e.partyId := Bump(created[e.partyId], e)]
  }

  /** The dictionary after the `forEach` has run over `s`. */
  function GroupMap(s: seq<MilkEntry>): map<string, PartyTotals>
    decreases |s|
  {
    if s == [] then map[] else GroupNext(GroupMap(s[..|s| - 1]), s[|s| - 1])
  }

  /** Running the `forEach` over one more entry is one more turn. */
  lemma GroupMapSnoc(s: seq<MilkEntry>, e: MilkEntry)
    ensures GroupMap(s + [e]) == GroupNext(GroupMap(s), e)
  {
    assert (s + [e])[..|s|] == s;
  }

  /** The dictionary has totals for exactly the party ids of the entries. */
  lemma {:induction false} GroupMapDomain(s: seq<MilkEntry>, k: string)
    ensures k in GroupMap(s) <==> k in PartyIds(s)
    decreases |s|
  {
    if s != [] {
      var init, e := s[..|s| - 1], s[|s| - 1];
      assert s == init + [e];
      GroupMapDomain(init, k);
      PartyIdsSnoc(init, e);
    }
  }

  /** Each party's totals in the dictionary are the totals its entries define. */
  lemma {:induction false} GroupMapTotals(s: seq<MilkEntry>, k: string)
    requires k in GroupMap(s)
    ensures GroupMap(s)[k] == TotalsFor(k, s)
    decreases |s|
  {
    var init, e := s[..|s| - 1], s[|s| - 1];
    assert s == init + [e];
    TotalsSnoc(init, e, k);
    if k in GroupMap(init) {
      GroupMapTotals(init, k);
    } else {
      GroupMapDomain(init, k);
      UnseenTotals(init, k);
    }
  }

  /** One more turn of the loop: the dictionary takes one more turn, and the
      id joins the order exactly when the dictionary lacked it. */
  lemma GroupStep(s: seq<MilkEntry>, e: MilkEntry)
    ensures GroupMap(s + [e]) == GroupNext(GroupMap(s), e)
    ensures PartyIds(s + [e]) == if e.partyId in GroupMap(s) then PartyIds(s) else PartyIds(s) + [e.partyId]
  {
    GroupMapSnoc(s, e);
    PartyIdsSnoc(s, e);
    GroupMapDomain(s, e.partyId);
  }

  /** Reading the dictionary out in id order gives each party's totals. */
  lemma GroupMapReadOut(s: seq<MilkEntry>)
    ensures forall j :: 0 <= j < |PartyIds(s)| ==>
              && PartyIds(s)[j] in GroupMap(s)
              && GroupMap(s)[PartyIds(s)[j]] == TotalsFor(PartyIds(s)[j], s)
  {
    forall j | 0 <= j < |PartyIds(s)|
      ensures PartyIds(s)[j] in GroupMap(s)
      ensures GroupMap(s)[PartyIds(s)[j]] == TotalsFor(PartyIds(s)[j], s)
    {
      GroupMapDomain(s, PartyIds(s)[j]);
      GroupMapTotals(s, PartyIds(s)[j]);
    }
  }

  /** The grouping loop of `reportData`: a dictionary from party id to
      totals, created on first sight of an id and bumped for each entry,
      then read out in insertion order. */
  method GroupByParty(entries: seq<MilkEntry>) returns (groups: seq<PartyTotals>)
    ensures |groups| == |PartyIds(entries)|
    ensures forall i :: 0 <= i < |groups| ==> groups[i] == TotalsFor(PartyIds(entries)[i], entries)
  {
    var acc: map<string, PartyTotals> := map[];
    var order: seq<string> := [];
    var i := 0;
    while i < |entries|
      invariant 0 <= i <= |entries|
      invariant acc == GroupMap(entries[..i])
      invariant order == PartyIds(entries[..i])
    {
      var e := entries[i];
      Seqs.TakeSnoc(entries, i);
      GroupStep(entries[..i], e);
      if e.partyId !in acc {
        acc := acc[e.partyId := PartyTotals(e.partyId, 0.0, 0.0, 0)];
        order := order + [e.partyId];
      }
      acc := acc[e.partyId := Bump(acc[e.partyId], e)];
      i := i + 1;
    }
    assert entries[..i] == entries;
    GroupMapReadOut(entries);
    groups := seq(|order|, j requires 0 <= j < |order| => acc[order[j]]);
  }

  /** The predicate "some party has the group's id". */
  function IsKnown(parties: seq<Party>): PartyTotals -> bool
  {
    (g: PartyTotals) => FindParty(parties, g.partyId).Some?
  }

  /** `Object.entries(map).map(...).filter(item => item.party)`: attach the
      first party with the group's id and drop groups with no such party. */
  function KnownRows(groups: seq<PartyTotals>, parties: seq<Party>): (rows: seq<ReportRow>)
    ensures var known := Seqs.Filter(IsKnown(parties), groups);
            && |rows| == |known|
            && forall i :: 0 <= i < |rows| ==>
                 FindParty(parties, known[i].partyId).Some?
                 && rows[i] == ReportRow(FindParty(parties, known[i].partyId).value, known[i].qty, known[i].amt, known[i].count)
  {
    if groups == [] then []
    else
      var init, g := groups[..|groups| - 1], groups[|groups| - 1];
      var rows := KnownRows(init, parties);
      match FindParty(parties, g.partyId)
      case Some(p) => rows + [ReportRow(p, g.qty, g.amt, g.count)]
      case None => rows
  }

  /** So every row is a group with the first party that has its id, every
      group whose id is a known party gives a row, and groups of unknown ids
      are dropped. */
  lemma KnownRowsMembers(groups: seq<PartyTotals>, parties: seq<Party>)
    ensures |KnownRows(groups, parties)| <= |groups|
    ensures forall r :: r in KnownRows(groups, parties) ==>
              exists g :: g in groups && FindParty(parties, g.partyId) == Some(r.party)
                          && r == ReportRow(r.party, g.qty, g.amt, g.count)
    ensures forall g :: g in groups && FindParty(parties, g.partyId).Some? ==>
              ReportRow(FindParty(parties, g.partyId).value, g.qty, g.amt, g.count) in KnownRows(groups, parties)
  {
    var rows, known := KnownRows(groups, parties), Seqs.Filter(IsKnown(parties), groups);
    forall r | r in rows
      ensures exists g :: g in groups && FindParty(parties, g.partyId) == Some(r.party)
                          && r == ReportRow(r.party, g.qty, g.amt, g.count)
    {
      var i :| 0 <= i < |rows| && rows[i] == r;
      assert known[i] in known;
    }
    forall g | g in groups && FindParty(parties, g.partyId).Some?
      ensures ReportRow(FindParty(parties, g.partyId).value, g.qty, g.amt, g.count) in rows
    {
      assert IsKnown(parties)(g);
      var i :| 0 <= i < |known| && known[i] == g;
      assert rows[i] in rows;
    }
  }

  /** The whole of `reportData`. */
  method ReportData(entries: seq<MilkEntry>, parties: seq<Party>) returns (rows: seq<ReportRow>)
    ensures rows == KnownRows(GroupTotals(entries), parties)
  {
    var groups := GroupByParty(entries);
    assert groups == GroupTotals(entries);
    rows := KnownRows(groups, parties);
  }

  /** The groups as a function of the entries (what GroupByParty returns). */
  function GroupTotals(entries: seq<MilkEntry>): seq<PartyTotals>
  {
    var ids := PartyIds(entries);
    seq(|ids|, i requires 0 <= i < |ids| => TotalsFor(ids[i], entries))
  }

  const GroupCount: PartyTotals -> real := (g: PartyTotals) => g.count as real
  const GroupQty: PartyTotals -> real := (g: PartyTotals) => g.qty
  const GroupAmt: PartyTotals -> real := (g: PartyTotals) => g.amt

  lemma {:induction false} SumOfOnes(s: seq<MilkEntry>)
    ensures Seqs.Sum(One, s) == |s| as real
    decreases |s|
  {
    if s != [] {
      SumOfOnes(s[..|s| - 1]);
    }
  }

  /** Before the known-party filter, the counts add up to the number of
      entries and the quantities and amounts to their ledger totals: every
      entry is counted in exactly one group. */
  lemma GroupsCoverAllEntries(entries: seq<MilkEntry>)
    ensures Seqs.Sum(GroupCount, GroupTotals(entries)) == |entries| as real
    ensures Seqs.Sum(GroupQty, GroupTotals(entries)) == Seqs.Sum(Quantity, entries)
    ensures Seqs.Sum(GroupAmt, GroupTotals(entries)) == Seqs.Sum(Amount, entries)
  {
    var ids, groups := PartyIds(entries), GroupTotals(entries);
    forall i | 0 <= i < |ids|
      ensures GroupCount(groups[i]) == Seqs.Sum(One, Seqs.Filter(Seqs.KeyIs(PartyOf, ids[i]), entries))
    {
      SumOfOnes(Seqs.Filter(Seqs.KeyIs(PartyOf, ids[i]), entries));
    }
    Seqs.SumOfGroupRows(PartyOf, One, ids, entries, GroupCount, groups);
    Seqs.GroupTotalOfKeys(PartyOf, One, entries);
    SumOfOnes(entries);
    Seqs.SumOfGroupRows(PartyOf, Quantity, ids, entries, GroupQty, groups);
    Seqs.GroupTotalOfKeys(PartyOf, Quantity, entries);
    Seqs.SumOfGroupRows(PartyOf, Amount, ids, entries, GroupAmt, groups);
    Seqs.GroupTotalOfKeys(PartyOf, Amount, entries);
  }

  /** A party id with no entries gets no group; no entries, no report. */
  lemma OnlyIdsWithEntries(entries: seq<MilkEntry>, parties: seq<Party>)
    ensures forall g :: g in GroupTotals(entries) ==> g.count > 0
    ensures entries == [] ==> GroupTotals(entries) == [] && KnownRows(GroupTotals(entries), parties) == []
  {
    var ids, groups := PartyIds(entries), GroupTotals(entries);
    forall g | g in groups ensures g.count > 0 {
      var i :| 0 <= i < |groups| && groups[i] == g;
      assert ids[i] in ids;
      var e :| e in entries && PartyOf(e) == ids[i];
      assert e in EntriesOf(ids[i], entries);
    }
  }

  /** A party's entries over two batches are its entries in the first, then in the second. */
  lemma EntriesOfAppend(id: string, a: seq<MilkEntry>, b: seq<MilkEntry>)
    ensures EntriesOf(id, a + b) == EntriesOf(id, a) + EntriesOf(id, b)
  {
    Seqs.FilterAppend(Seqs.KeyIs(PartyOf, id), a, b);
  }

  /** A party's totals over two batches of entries are the sums of its totals over each. */
  lemma TotalsForAppend(id: string, a: seq<MilkEntry>, b: seq<MilkEntry>)
    ensures TotalsFor(id, a + b).qty == TotalsFor(id, a).qty + TotalsFor(id, b).qty
    ensures TotalsFor(id, a + b).amt == TotalsFor(id, a).amt + TotalsFor(id, b).amt
    ensures TotalsFor(id, a + b).count == TotalsFor(id, a).count + TotalsFor(id, b).count
  {
    EntriesOfAppend(id, a, b);
    Seqs.SumAppend(Quantity, EntriesOf(id, a), EntriesOf(id, b));
    Seqs.SumAppend(Amount, EntriesOf(id, a), EntriesOf(id, b));
  }

  /** So a party's totals do not depend on which batch of entries comes first. */
  lemma TotalsOrderFree(id: string, a: seq<MilkEntry>, b: seq<MilkEntry>)
    ensures TotalsFor(id, a + b) == TotalsFor(id, b + a)
  {
    TotalsForAppend(id, a, b);
    TotalsForAppend(id, b, a);
  }

  /** More generally, a party's totals do not depend on the order of the
      entries at all: any permutation of them gives the same totals. */
  lemma TotalsPermutation(id: string, a: seq<MilkEntry>, b: seq<MilkEntry>)
    requires multiset(a) == multiset(b)
    ensures TotalsFor(id, a) == TotalsFor(id, b)
  {
    var p := Seqs.KeyIs(PartyOf, id);
    var ma, mb := EntriesOf(id, a), EntriesOf(id, b);
    Seqs.FilterCounts(p, a);
    Seqs.FilterCounts(p, b);
    assert multiset(ma) == multiset(mb) by {
      forall e ensures multiset(ma)[e] == multiset(mb)[e] {
        assert multiset(a)[e] == multiset(b)[e];
      }
    }
    assert |ma| == |multiset(ma)| == |multiset(mb)| == |mb|;
    Seqs.SumPermutation(Quantity, ma, mb);
    Seqs.SumPermutation(Amount, ma, mb);
  }

  /** The same of the whole dictionary: reordering the entries gives the same
      party ids, each with the same totals. */
  lemma GroupMapPermutation(a: seq<MilkEntry>, b: seq<MilkEntry>)
    requires multiset(a) == multiset(b)
    ensures GroupMap(a) == GroupMap(b)
  {
    forall k | true
      ensures k in GroupMap(a) <==> k in GroupMap(b)
    {
      GroupMapDomain(a, k);
      GroupMapDomain(b, k);
      assert forall e :: e in a <==> e in b by {
        forall e ensures e in a <==> e in b {
          assert e in a <==> e in multiset(a);
        }
      }
    }
    forall k | k in GroupMap(a)
      ensures GroupMap(a)[k] == GroupMap(b)[k]
    {
      GroupMapTotals(a, k);
      GroupMapTotals(b, k);
      TotalsPermutation(k, a, b);
    }
  }

  /** Three entries of party p1 with quantities 10, 20, 30 and amounts 100,
      200, 300 settle to 60 litres, 600 and a count of 3. */
  lemma SettlementExample(e1: MilkEntry, e2: MilkEntry, e3: MilkEntry)
    requires e1.partyId == "p1" && e2.partyId == "p1" && e3.partyId == "p1"
    requires e1.quantity == 10.0 && e2.quantity == 20.0 && e3.quantity == 30.0
    requires e1.amount == 100.0 && e2.amount == 200.0 && e3.amount == 300.0
    ensures GroupTotals([e1, e2, e3]) == [PartyTotals("p1", 60.0, 600.0, 3)]
  {
    var s := [e1, e2, e3];
    assert s[..2] == [e1, e2] && s[..2][..1] == [e1] && [e1][..0] == [];
    assert Seqs.Keys(PartyOf, []) == [];
    assert Seqs.Keys(PartyOf, [e1]) == Seqs.Keys(PartyOf, []) + [PartyOf(e1)];
    assert PartyIds([e1, e2]) == ["p1"];
    assert PartyIds(s) == ["p1"];
    Seqs.FilterKeepsAll(Seqs.KeyIs(PartyOf, "p1"), s);
    assert EntriesOf("p1", s) == s;
    assert Seqs.Sum(Quantity, [e1]) == Seqs.Sum(Quantity, []) + 10.0;
    assert Seqs.Sum(Quantity, [e1, e2]) == 30.0;
    assert Seqs.Sum(Quantity, s) == 60.0;
    assert Seqs.Sum(Amount, [e1]) == Seqs.Sum(Amount, []) + 100.0;
    assert Seqs.Sum(Amount, [e1, e2]) == 300.0;
    assert Seqs.Sum(Amount, s) == 600.0;
    assert TotalsFor("p1", s) == PartyTotals("p1", 60.0, 600.0, 3);
  }
}
