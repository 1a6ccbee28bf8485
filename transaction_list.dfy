/** The transaction registry: party names looked up by id, the search and
    type filter over the ledger, and the CSV text of the filtered rows.
    Number-to-text conversion is a library call, so it is a parameter
    `show` of the CSV functions. */
module TransactionList {
  import opened Types
  import Seqs
  import App

  /** `parties.find(p => p.id === id)?.name || 'Unknown'`: an empty name, like
      a missing party, shows as "Unknown". */
  function PartyName(parties: seq<Party>, id: string): (name: string)
    ensures name != ""
    ensures FindParty(parties, id).Some? && FindParty(parties, id).value.name != ""
            ==> name == FindParty(parties, id).value.name
    ensures !(FindParty(parties, id).Some? && FindParty(parties, id).value.name != "")
            ==> name == "Unknown"
  {
    match FindParty(parties, id)
    case Some(p) => if p.name != "" then p.name else "Unknown"
    case None => "Unknown"
  }

  /** The name shown is that of the first party with the id. */
  lemma NameOfFirstMatch(parties: seq<Party>, id: string, i: int)
    requires 0 <= i < |parties| && parties[i].id == id
    requires forall j :: 0 <= j < i ==> parties[j].id != id
    ensures PartyName(parties, id) == if parties[i].name != "" then parties[i].name else "Unknown"
  {
    assert FindParty(parties, id).Some?;
  }

  /** An id that no party has shows as "Unknown". */
  lemma NameOfMissingParty(parties: seq<Party>, id: string)
    requires forall j :: 0 <= j < |parties| ==> parties[j].id != id
    ensures PartyName(parties, id) == "Unknown"
  {
  }

  predicate IsUpper(c: char)
  {
    'A' <= c <= 'Z'
  }

  /** `toLowerCase` on one character, for the Latin letters A to Z. */
  function LowerChar(c: char): (d: char)
    ensures !IsUpper(d)
    ensures IsUpper(c) ==> d as int == c as int + 32
    ensures !IsUpper(c) ==> d == c
  {
    if IsUpper(c) then (c as int + 32) as char else c
  }

  /** `toLowerCase`, for the Latin letters A to Z. */
  function Lower(s: string): (r: string)
    ensures |r| == |s|
    ensures forall i :: 0 <= i < |r| ==> !IsUpper(r[i])
    ensures forall i :: 0 <= i < |s| ==> r[i] == LowerChar(s[i])
  {
    seq(|s|, i requires 0 <= i < |s| => LowerChar(s[i]))
  }

  /** Lower-casing twice is lower-casing once. */
  lemma LowerIdempotent(s: string)
    ensures Lower(Lower(s)) == Lower(s)
  {
    assert forall i :: 0 <= i < |s| ==> Lower(Lower(s))[i] == Lower(s)[i];
  }

  /** `t` occurs in `s` starting at position `i`. */
  predicate OccursAt(s: string, t: string, i: int)
  {
    0 <= i && i + |t| <= |s| && s[i..i + |t|] == t
  }

  /** Whether `t` occurs in `s` at position `k` or later. */
  function IncludesFrom(s: string, t: string, k: nat): (b: bool)
    ensures b <==> exists i :: k <= i && OccursAt(s, t, i)
    decreases |s| - k
  {
    if k + |t| > |s| then false
    else if s[k..k + |t|] == t then assert OccursAt(s, t, k); true
    else IncludesFrom(s, t, k + 1)
  }

  /** `s.includes(t)`: `t` occurs in `s` at some position. */
  function Includes(s: string, t: string): (b: bool)
    ensures b <==> exists i :: OccursAt(s, t, i)
  {
    IncludesFrom(s, t, 0)
  }

  /** The type selector: every type, or only one. */
  datatype TypeFilter = All | Only(kind: TransactionType)

  function TypeMatches(filter: TypeFilter, t: TransactionType): bool
  {
    filter.All? || t == filter.kind
  }

  /** The predicate an entry must meet, for a search term already lower-cased. */
  function Matcher(parties: seq<Party>, needle: string, filter: TypeFilter): MilkEntry -> bool
  {
    (e: MilkEntry) => Includes(Lower(PartyName(parties, e.partyId)), needle) && TypeMatches(filter, e.kind)
  }

  /** `filteredEntries`: the entries whose party name contains the search
      term, ignoring case, and whose type the selector admits, in ledger order. */
  function FilteredEntries(entries: seq<MilkEntry>, parties: seq<Party>, searchTerm: string, filter: TypeFilter): (shown: seq<MilkEntry>)
    ensures Seqs.IsSubsequence(shown, entries)
    ensures forall e :: e in shown <==>
              && e in entries
              && Includes(Lower(PartyName(parties, e.partyId)), Lower(searchTerm))
              && TypeMatches(filter, e.kind)
    ensures forall e :: multiset(shown)[e]
                        == if Includes(Lower(PartyName(parties, e.partyId)), Lower(searchTerm))
                              && TypeMatches(filter, e.kind)
                           then multiset(entries)[e] else 0
  {
    Seqs.FilterIsSubsequence(Matcher(parties, Lower(searchTerm), filter), entries);
    Seqs.FilterCounts(Matcher(parties, Lower(searchTerm), filter), entries);
    Seqs.Filter(Matcher(parties, Lower(searchTerm), filter), entries)
  }

  /** An empty search with every type selected shows the whole ledger. */
  lemma EmptySearchShowsAll(entries: seq<MilkEntry>, parties: seq<Party>)
    ensures FilteredEntries(entries, parties, "", All) == entries
  {
    Seqs.FilterKeepsAll(Matcher(parties, Lower(""), All), entries);
  }

  /** An empty search with one type selected is that type's view of the ledger. */
  lemma EmptySearchIsTypeView(entries: seq<MilkEntry>, parties: seq<Party>, t: TransactionType)
    ensures FilteredEntries(entries, parties, "", Only(t)) == App.OfType(entries, t)
  {
    Seqs.FilterSamePredicate(Matcher(parties, Lower(""), Only(t)), App.KindIs(t), entries);
  }

  /** The case of the search term does not matter. */
  lemma SearchIgnoresCase(entries: seq<MilkEntry>, parties: seq<Party>, searchTerm: string, filter: TypeFilter)
    ensures FilteredEntries(entries, parties, searchTerm, filter)
            == FilteredEntries(entries, parties, Lower(searchTerm), filter)
  {
    LowerIdempotent(searchTerm);
  }

  /** Nor does the case of the party name: two directories that give a
      party the same name up to case show the same entries. */
  lemma NameCaseIgnored(entries: seq<MilkEntry>, p1: seq<Party>, p2: seq<Party>, searchTerm: string, filter: TypeFilter)
    requires forall i :: 0 <= i < |entries| ==>
               Lower(PartyName(p1, entries[i].partyId)) == Lower(PartyName(p2, entries[i].partyId))
    ensures FilteredEntries(entries, p1, searchTerm, filter) == FilteredEntries(entries, p2, searchTerm, filter)
  {
    Seqs.FilterSamePredicate(Matcher(p1, Lower(searchTerm), filter), Matcher(p2, Lower(searchTerm), filter), entries);
  }

  /** The entries of parties missing from the directory are found by the
      search term "unknown", in any case. */
  lemma MissingPartiesMatchUnknown(entries: seq<MilkEntry>, parties: seq<Party>, e: MilkEntry)
    requires e in entries
    requires forall j :: 0 <= j < |parties| ==> parties[j].id != e.partyId
    ensures e in FilteredEntries(entries, parties, "UNKNOWN", All)
  {
    assert Lower("Unknown") == "unknown";
    assert Lower("UNKNOWN") == "unknown";
    assert "unknown" <= Lower(PartyName(parties, e.partyId));
  }

  const HEADERS: seq<string> := ["Date", "Party", "Type", "Quantity", "Fat", "SNF", "Rate", "Amount"]

  /** The type as stored, `'PURCHASE'` or `'SALE'`. */
  function TypeName(t: TransactionType): (name: string)
    ensures name == "PURCHASE" <==> t == Purchase
    ensures name == "SALE" <==> t == Sale
  {
    match t
    case Purchase => "PURCHASE"
    case Sale => "SALE"
  }

  /** One CSV row, the fields in header order. */
  function CsvRow(e: MilkEntry, parties: seq<Party>, show: real -> string): (row: seq<string>)
    ensures |row| == |HEADERS|
  {
    [e.date, PartyName(parties, e.partyId), TypeName(e.kind),
     show(e.quantity), show(e.fat), show(e.snf), show(e.rate), show(e.amount)]
  }

  /** Each field sits under its header: date, party name, type, quantity,
      FAT, SNF, rate, amount. */
  lemma CsvRowColumns(e: MilkEntry, parties: seq<Party>, show: real -> string)
    ensures HEADERS[0] == "Date" && CsvRow(e, parties, show)[0] == e.date
    ensures HEADERS[1] == "Party" && CsvRow(e, parties, show)[1] == PartyName(parties, e.partyId)
    ensures HEADERS[2] == "Type" && CsvRow(e, parties, show)[2] == TypeName(e.kind)
    ensures HEADERS[3] == "Quantity" && CsvRow(e, parties, show)[3] == show(e.quantity)
    ensures HEADERS[4] == "Fat" && CsvRow(e, parties, show)[4] == show(e.fat)
    ensures HEADERS[5] == "SNF" && CsvRow(e, parties, show)[5] == show(e.snf)
    ensures HEADERS[6] == "Rate" && CsvRow(e, parties, show)[6] == show(e.rate)
    ensures HEADERS[7] == "Amount" && CsvRow(e, parties, show)[7] == show(e.amount)
  {
  }

  /** One comma-joined line per entry, in order. */
  function CsvBody(shown: seq<MilkEntry>, parties: seq<Party>, show: real -> string): (body: seq<string>)
    ensures |body| == |shown|
    ensures forall i :: 0 <= i < |shown| ==> body[i] == Seqs.Join(CsvRow(shown[i], parties, show), ',')
  {
    seq(|shown|, i requires 0 <= i < |shown| => Seqs.Join(CsvRow(shown[i], parties, show), ','))
  }

  /** The header line followed by one comma-joined line per entry. */
  function CsvLines(shown: seq<MilkEntry>, parties: seq<Party>, show: real -> string): (lines: seq<string>)
    ensures |lines| == |shown| + 1
    ensures lines[0] == Seqs.Join(HEADERS, ',')
    ensures forall i :: 1 <= i < |lines| ==> lines[i] == Seqs.Join(CsvRow(shown[i - 1], parties, show), ',')
  {
    var header := Seqs.Join(HEADERS, ',');
    var body := CsvBody(shown, parties, show);
    var lines := [header] + body;
    assert |lines| == |body| + 1 && lines[0] == header && lines[1..] == body;
    lines
  }

  /** `csvContent` of `exportToCSV`: the lines of the filtered entries joined by newlines. */
  function CsvContent(entries: seq<MilkEntry>, parties: seq<Party>, searchTerm: string, filter: TypeFilter,
                      show: real -> string): (content: string)
    ensures Seqs.Join(HEADERS, ',') <= content
    ensures FilteredEntries(entries, parties, searchTerm, filter) == [] ==> content == Seqs.Join(HEADERS, ',')
  {
    var lines := CsvLines(FilteredEntries(entries, parties, searchTerm, filter), parties, show);
    Seqs.Join(lines, '\n')
  }

  /** No field of the rows of `shown` holds `c`. */
  predicate FieldsAvoid(shown: seq<MilkEntry>, parties: seq<Party>, show: real -> string, c: char)
  {
    forall i, j :: 0 <= i < |shown| && 0 <= j < |HEADERS| ==> c !in CsvRow(shown[i], parties, show)[j]
  }

  /** No header holds a newline, so neither does the header line. */
  lemma HeaderLineIsOneLine()
    ensures '\n' !in Seqs.Join(HEADERS, ',')
  {
    assert forall j :: 0 <= j < |HEADERS| ==> '\n' !in HEADERS[j];
    Seqs.JoinAvoids(HEADERS, ',', '\n');
  }

  /** A row none of whose fields holds a newline joins to a line without one. */
  lemma RowLineIsOneLine(e: MilkEntry, parties: seq<Party>, show: real -> string)
    requires forall j :: 0 <= j < |HEADERS| ==> '\n' !in CsvRow(e, parties, show)[j]
    ensures '\n' !in Seqs.Join(CsvRow(e, parties, show), ',')
  {
    Seqs.JoinAvoids(CsvRow(e, parties, show), ',', '\n');
  }

  /** When no field holds a newline, the lines of `shown` split back out of their join. */
  lemma CsvLinesSplit(shown: seq<MilkEntry>, parties: seq<Party>, show: real -> string)
    requires FieldsAvoid(shown, parties, show, '\n')
    ensures Seqs.Split(Seqs.Join(CsvLines(shown, parties, show), '\n'), '\n') == CsvLines(shown, parties, show)
  {
    var lines := CsvLines(shown, parties, show);
    forall k | 0 <= k < |lines|
      ensures '\n' !in lines[k]
    {
      if k == 0 {
        HeaderLineIsOneLine();
      } else {
        RowLineIsOneLine(shown[k - 1], parties, show);
      }
    }
    Seqs.SplitJoin(lines, '\n');
  }

  /** When no field holds a newline, splitting the CSV text at newlines gives
      the header line and then one line per filtered entry, in order. */
  lemma CsvHasOneLinePerEntry(entries: seq<MilkEntry>, parties: seq<Party>, searchTerm: string, filter: TypeFilter,
                              show: real -> string)
    requires FieldsAvoid(FilteredEntries(entries, parties, searchTerm, filter), parties, show, '\n')
    ensures Seqs.Split(CsvContent(entries, parties, searchTerm, filter, show), '\n')
            == CsvLines(FilteredEntries(entries, parties, searchTerm, filter), parties, show)
    ensures |Seqs.Split(CsvContent(entries, parties, searchTerm, filter, show), '\n')|
            == |FilteredEntries(entries, parties, searchTerm, filter)| + 1
  {
    CsvLinesSplit(FilteredEntries(entries, parties, searchTerm, filter), parties, show);
  }

  /** When no field holds a comma, a data line splits back into its eight
      fields in header order. */
  lemma CsvLineHasEightFields(e: MilkEntry, parties: seq<Party>, show: real -> string)
    requires forall j :: 0 <= j < |HEADERS| ==> ',' !in CsvRow(e, parties, show)[j]
    ensures Seqs.Split(Seqs.Join(CsvRow(e, parties, show), ','), ',') == CsvRow(e, parties, show)
  {
    Seqs.SplitJoin(CsvRow(e, parties, show), ',');
  }

  /** The header line splits back into the eight headers. */
  lemma HeaderLineHasEightFields()
    ensures Seqs.Split(Seqs.Join(HEADERS, ','), ',') == HEADERS
  {
    Seqs.SplitJoin(HEADERS, ',');
  }

  /** Fields are not quoted: a party name with one comma in it, and no comma
      anywhere else, makes a line of nine fields. */
  lemma CommaInNameAddsField(e: MilkEntry, parties: seq<Party>, show: real -> string, a: string, b: string)
    requires PartyName(parties, e.partyId) == a + [','] + b
    requires ',' !in a && ',' !in b
    requires forall j :: 0 <= j < |HEADERS| && j != 1 ==> ',' !in CsvRow(e, parties, show)[j]
    ensures |Seqs.Split(Seqs.Join(CsvRow(e, parties, show), ','), ',')| == |HEADERS| + 1
  {
    var row := CsvRow(e, parties, show);
    var rest := row[2..];
    var nine := [row[0], a, b] + rest;
    assert row == [row[0], a + [','] + b] + rest;
    Seqs.JoinSplitsSecondPart(row[0], a, b, rest, ',');
    assert forall j :: 0 <= j < |nine| ==> ',' !in nine[j] by {
      forall j | 0 <= j < |nine| ensures ',' !in nine[j] {
        if j >= 3 {
          assert nine[j] == row[j - 1];
        }
      }
    }
    Seqs.SplitJoin(nine, ',');
  }
}
