# DoodhDhara dairy ledger: a verified model of its core

DoodhDhara keeps the books of a village milk business. Milk is bought from
contractors (a *purchase*, or collection) and sold to clients (a *sale*, or
bulk dispatch). Each entry records the litres, the FAT reading and the CLR
(corrected lactometer reading). The app derives SNF (solids-not-fat) from CLR
and FAT with Richmond's formula. It prices a litre from kilogram prices for
fat and SNF and rounds every figure to two decimals. The project models this
core, one module per source file:

- `CalculationService`: the pricing engine (SNF, rate, amount).
- `MilkController`: the back end's create-entry handler. It overwrites SNF
  and the amount on the submitted entry before saving it. The entry is a
  class whose fields change in place.
- `MilkForm`: the entry form.
  - The live preview is a pure function.
  - The submit handler is a method on a class that holds the form state.
  - The party choices are a filter over the directory.
- `App`: the application state. A `Ledger` class holds the entry list
  (newest first), the party directory and the new-party inputs. Its
  handlers are the add, delete and register operations, and the page
  views are derived from it.
- `BillingReport`: party-wise settlement. A loop over a dictionary sums
  each party's litres, amount and entry count. Only groups whose id is a
  known party are kept.
- `Dashboard`: the totals, the profit, and the per-month purchase and sale
  amounts behind the chart. The monthly figures come from a dictionary
  loop.
- `TransactionList`: the registry.
  - Party names are looked up by id.
  - The search is a case-insensitive party-name search combined with a
    type filter.
  - The CSV export text is built from the shown entries.

Two support modules hold shared definitions:

- `Rounding` has the two-decimal rounding `Math.round(x * 100) / 100`.
- `Seqs` has the array operations the sources use: `filter`, `reduce`
  as a sum, `join`, and the insertion order of a dictionary's keys. It
  also has a `split` at a separator, which serves only to state that the
  CSV text reads back, and the lemmas about them.

`Types` holds the records of `types.ts`.

Numbers are modelled as exact reals. The ids from `crypto.randomUUID`, the
current date and the locale month name are parameters. The repository's
`save` and the front end's `saveEntry` hand back what they are given.

## Model

| member | source | states |
|---|---|---|
| Types.FindParty | components/TransactionList.tsx:16 | `parties.find(p => p.id === id)`: `None` exactly when no party has the id; otherwise the party at the first index that has it |
| Types.FindPartyAppend | App.tsx:74 | after one party is appended, every lookup that succeeded before gives the same party; an id that was not found resolves to the new party if it is that party's id, and is still not found otherwise |
| Rounding.MathRound | backend/MilkController.java:25 | `Math.round` returns the integer within half a unit of its argument, with ties going up |
| Rounding.Round2 | services/calculationService.ts:10 | the result is a whole number of hundredths within 0.005 of the argument |
| Rounding.Round2Unique | services/calculationService.ts:10 | any value of whole hundredths within 0.005 of x is the rounding of x |
| Rounding.Round2Idempotent | services/calculationService.ts:25 | rounding a rounded value changes nothing |
| Rounding.Round2Monotone | services/calculationService.ts:25 | rounding preserves order |
| Rounding.Round2NonNegative | services/calculationService.ts:29 | rounding a non-negative value gives a non-negative value |
| CalculationService.CalculateSNF | services/calculationService.ts:7-11 | the result is whole hundredths; it is exactly 0 when CLR or FAT is 0; otherwise it is Richmond's CLR/4 + FAT·0.2 + 0.7 within 0.005 |
| CalculationService.CalculateMilkRate | services/calculationService.ts:17-26 | whole hundredths, within 0.005 of fat·fatPrice/100 + snf·snfPrice/100 |
| CalculationService.CalculateTotalAmount | services/calculationService.ts:28-30 | whole hundredths, within 0.005 of quantity·rate, and exactly 0 for quantity 0 |
| CalculationService.PricesAreFixedPoints | services/calculationService.ts:7-30 | every result of the three functions is unchanged by rounding it again |
| CalculationService.RateMonotone | services/calculationService.ts:17-26 | with non-negative prices, higher fat and SNF never give a lower rate |
| CalculationService.ExactRateLinearInFat | services/calculationService.ts:23-25 | before rounding, the rate is additive in the fat reading |
| CalculationService.ExactRateLinearInSnf | services/calculationService.ts:23-25 | before rounding, the rate is additive in the SNF value |
| CalculationService.WorkedExample | services/calculationService.ts:7-30 | CLR 28 and FAT 6 give SNF 8.90; at that SNF, with both prices omitted (620 and 310 per kilogram), the rate is 64.79; 10 litres at that rate cost 647.90 |
| MilkController.ServerSNF | backend/MilkController.java:24-25 | the stored SNF is whole hundredths within 0.005 of Richmond's formula, with no zero case |
| MilkController.ServerAmount | backend/MilkController.java:28 | the stored amount is whole hundredths within 0.005 of quantity·rate |
| MilkController.CreateEntry | backend/MilkController.java:22-31 | with CLR and FAT present, `snf` is overwritten with the server's SNF; with quantity and rate also present, `amount` is overwritten with the server's amount from the client's rate and the entry is saved; a missing CLR or FAT fails before any write; a missing quantity or rate fails after `snf` is written; nothing else changes |
| MilkController.ServerAgreesWithEngine | backend/MilkController.java:24-28 | for non-zero readings the server's SNF equals the pricing engine's; the server's amount always equals the engine's amount |
| MilkController.ServerIgnoresZeroClr | backend/MilkController.java:24 | with CLR 0 and a non-negative FAT, the server stores an SNF of at least 0.70 while the engine gives 0 |
| MilkController.ServerSnfExample | backend/MilkController.java:24-25 | CLR 0 and FAT 6 are stored with SNF 1.90 |
| MilkForm.RatesFor | components/MilkForm.tsx:38-39 | a sale is priced at the sale fat and SNF rates, a purchase at the purchase rates |
| MilkForm.Preview | components/MilkForm.tsx:31-45 | the previewed SNF is the engine's SNF of the CLR and FAT with missing fields read as 0; all three preview values are whole hundredths; a missing CLR or FAT previews SNF 0; a missing quantity previews amount 0; the rate and amount are within 0.005 of their exact values at the form's prices, with missing fields read as 0 |
| MilkForm.PreviewOfBlankReadings | components/MilkForm.tsx:23-45 | a form with no readings previews SNF, rate and amount 0, which is the initial preview |
| MilkForm.SubmitCheck | components/MilkForm.tsx:51-53 | the checks in order: "no party" exactly when the party is empty; "quantity" exactly when a party is chosen and the quantity is not a number above 0; "FAT" exactly when both of those pass and FAT is not a number from 0 to 15; no error exactly when all three pass |
| MilkForm.SubmitCheckAsWritten | components/MilkForm.tsx:51-53 | the three checks as the code writes them, each an if-and-only-if: "no party" exactly when the party is empty; "quantity" exactly when a party is chosen and the quantity parses to at most 0; "FAT" exactly when both of those pass and FAT parses to below 0 or above 15; no error otherwise, so a field that does not parse passes its check |
| MilkForm.ErrorMessage | components/MilkForm.tsx:51-53 | each failed check has its own alert text: "Please select a party", "Quantity must be greater than 0", "Invalid FAT percentage" |
| MilkForm.SubmitCheckAgreesWhenParsed | components/MilkForm.tsx:51-53 | when quantity and FAT parse, the checks as written and as intended give the same outcome |
| MilkForm.BlankQuantityPassesAsWritten | components/MilkForm.tsx:52 | a form with an empty quantity passes the checks as written and fails the intended quantity check |
| MilkForm.SubmittedEntryIsPriced | components/MilkForm.tsx:55-67 | an entry built from a form that passed the checks is pending, has the form's type and party, a positive quantity and FAT from 0 to 15, and carries the engine's SNF, rate and amount for its own readings |
| MilkForm.BuildEntry | components/MilkForm.tsx:55-67 | the entry has the new id, the form's date and party, the given type, the form's quantity and FAT, its CLR or 0, the previewed SNF, rate and amount, and the pending status |
| MilkForm.Cleared | components/MilkForm.tsx:70-74 | quantity, FAT and CLR are emptied; party and date are kept |
| MilkForm.ClearedPreviewsZero | components/MilkForm.tsx:31-74 | a cleared form previews SNF, rate and amount 0 |
| MilkForm.PartyOptions | components/MilkForm.tsx:107-108 | the choices are exactly the contractors for a purchase and the clients for a sale, in directory order, each as many times as it is in the directory |
| MilkForm.EntryForm.constructor | components/MilkForm.tsx:15-29 | the form starts with no party, empty readings, today's date, no error and a preview that matches the fields |
| MilkForm.EntryForm.Edit | components/MilkForm.tsx:31-45 | after a field change the preview is again the preview of the fields |
| MilkForm.EntryForm.HandleSubmit | components/MilkForm.tsx:47-76 | a failing check sets its message, emits nothing and keeps the fields; otherwise one entry is emitted with the previewed prices, the error is empty, quantity, FAT and CLR are cleared while party and date are kept, and the preview still matches the fields |
| App.WithoutId | App.tsx:61 | no kept entry has the id, every other entry is kept as many times as it occurs, and the kept entries are a subsequence of the list in its order |
| App.DeleteAbsentIsIdentity | App.tsx:61 | deleting an id that no entry has changes nothing |
| App.DeleteUndoesAdd | App.tsx:54-62 | deleting the entry just added under a new id restores the list |
| App.OfType | App.tsx:152-159 | a type's view is exactly the entries of that type, each as many times as it occurs, in order |
| App.ViewsPartition | App.tsx:152-159 | every entry is in exactly one of the purchase and sale views |
| App.RecentStream | App.tsx:144 | the recent stream is the first min(8, n) entries |
| App.ContractorsCount | App.tsx:138 | at most the size of the directory, and 0 exactly when no party is a contractor |
| App.AddPartyCount | App.tsx:138 | registering a party raises the contractor count by one exactly when it is a contractor |
| App.NewParty | App.tsx:67-73 | the new party has the given id, name, type and village and an empty contact |
| App.Ledger.constructor | App.tsx:29-35 | the ledger starts with no entries, no parties, the default prices, empty name and village inputs and the contractor category |
| App.Ledger.HandleAddEntry | App.tsx:54-57 | the saved entry goes first and the earlier entries follow in their order |
| App.Ledger.HandleDeleteEntry | App.tsx:59-62 | the list becomes the list without the id |
| App.Ledger.HandleAddParty | App.tsx:64-79 | an empty name changes nothing; otherwise exactly one party with the inputs' name, type and village and an empty contact is appended, the name and village inputs are cleared, and the type input is kept |
| BillingReport.EntriesOf | components/BillingReport.tsx:15-19 | a party's entries are exactly the entries with its id |
| BillingReport.TotalsSnoc | components/BillingReport.tsx:15-19 | one more entry adds its litres, its amount and 1 to its own party's totals and changes no other party's |
| BillingReport.GroupNext | components/BillingReport.tsx:16-19 | one entry adds its party's key if missing, bumps that party's totals (from zero when new) by the entry's litres, amount and 1, and leaves every other key's totals as they were |
| BillingReport.PartyIdsSnoc | components/BillingReport.tsx:16 | one more entry appends its party id to the key order exactly when the id is new |
| BillingReport.GroupStep | components/BillingReport.tsx:15-20 | the dictionary after one more entry is the dictionary before it, updated by that entry; the key order grows by the id exactly when it was not yet a key |
| BillingReport.GroupMapReadOut | components/BillingReport.tsx:14-22 | every id in the key order is in the dictionary, with that party's totals over the entries |
| BillingReport.GroupMapDomain | components/BillingReport.tsx:14-19 | after the `forEach`, the dictionary has an entry for exactly the party ids of the entries |
| BillingReport.GroupMapTotals | components/BillingReport.tsx:14-19 | after the `forEach`, each id's dictionary value is that party's litres, amount and count summed over its entries |
| BillingReport.EntriesOfAppend | components/BillingReport.tsx:15-19 | a party's entries over two batches are its entries in the first followed by those in the second |
| BillingReport.GroupByParty | components/BillingReport.tsx:13-22 | one group per party id, in order of first occurrence; each group's litres, amount and count are the sums over that party's entries |
| BillingReport.KnownRows | components/BillingReport.tsx:22-25 | the rows are, position by position, the groups whose id is a known party, each carrying the first party with its id and the group's litres, amount and count; there are as many rows as such groups |
| BillingReport.KnownRowsMembers | components/BillingReport.tsx:22-25 | no more rows than groups; every row comes from a group of a known party; every group of a known party gives a row |
| BillingReport.ReportData | components/BillingReport.tsx:12-26 | the report is the known-party rows of the groups |
| BillingReport.GroupsCoverAllEntries | components/BillingReport.tsx:15-19 | before the filter, the counts sum to the number of entries, and the litres and amounts to their ledger totals |
| BillingReport.OnlyIdsWithEntries | components/BillingReport.tsx:16-22 | every group has at least one entry; no entries give no groups and an empty report |
| BillingReport.TotalsForAppend | components/BillingReport.tsx:15-19 | a party's litres, amount and count over two batches are the sums of those over each |
| BillingReport.TotalsOrderFree | components/BillingReport.tsx:15-19 | a party's totals do not depend on which of two batches comes first |
| BillingReport.TotalsPermutation | components/BillingReport.tsx:15-19 | any reordering of the entries (same multiset) gives every party the same litres, amount and count |
| BillingReport.GroupMapPermutation | components/BillingReport.tsx:14-20 | any reordering of the entries gives the same dictionary: the same party ids with the same totals |
| BillingReport.SettlementExample | components/BillingReport.tsx:12-22 | three entries of one party (10, 20, 30 litres; 100, 200, 300) settle to 60 litres, 600 and a count of 3 |
| Dashboard.TotalPurchase | components/Dashboard.tsx:24-26 | the filtered sum equals the sum over all entries of each purchase's amount, with sales counting 0 |
| Dashboard.TotalSales | components/Dashboard.tsx:28-30 | the filtered sum equals the sum over all entries of each sale's amount, with purchases counting 0 |
| Dashboard.TotalQty | components/Dashboard.tsx:32-34 | the filtered sum equals the sum over all entries of each purchase's litres, with sales counting 0 |
| Dashboard.ComputeStats | components/Dashboard.tsx:23-39 | purchase and sales totals are the amount sums over each type; litres are summed over purchases only; profit is sales minus purchases |
| Dashboard.StatsOfNothing | components/Dashboard.tsx:23-39 | no entries give all-zero figures |
| Dashboard.TotalPurchaseAppend | components/Dashboard.tsx:24-26 | the purchase total of two batches is the sum of their purchase totals |
| Dashboard.TotalSalesAppend | components/Dashboard.tsx:28-30 | the sales total of two batches is the sum of their sales totals |
| Dashboard.TotalQtyAppend | components/Dashboard.tsx:32-34 | the collected litres of two batches are the sum of their litres |
| Dashboard.StatsAppend | components/Dashboard.tsx:23-39 | the figures of two batches of entries add up |
| Dashboard.PurchasesAndSalesMakeUpTheTurnover | components/Dashboard.tsx:24-30 | purchase total plus sales total is the sum of all amounts |
| Dashboard.BucketSnoc | components/Dashboard.tsx:53-54 | one more entry adds its amount to exactly one bucket: `purchase` of its month for a purchase, `sale` otherwise |
| Dashboard.ChartTurn | components/Dashboard.tsx:47-54 | one entry adds its month's bucket if missing (starting at 0 and 0), credits its amount to that bucket, and leaves every other month's bucket as it was |
| Dashboard.MonthsSnoc | components/Dashboard.tsx:49-51 | one more entry appends its month to the bucket order exactly when the month is new |
| Dashboard.ChartStep | components/Dashboard.tsx:45-55 | the dictionary after one more entry is the dictionary before it, updated by that entry; the bucket order grows by the month exactly when it was not yet a key |
| Dashboard.ChartMapReadOut | components/Dashboard.tsx:45-57 | every month in the bucket order is in the dictionary, with that month's purchase and sale sums |
| Dashboard.ChartMapDomain | components/Dashboard.tsx:45-55 | after the `forEach`, the dictionary has a bucket for exactly the months of the entries |
| Dashboard.ChartMapBucket | components/Dashboard.tsx:45-55 | after the `forEach`, each month's bucket holds that month's purchase and sale amount sums |
| Dashboard.ChartData | components/Dashboard.tsx:41-58 | one bucket per month, in order of first occurrence; each bucket's purchase and sale figures are the sums over that month's entries |
| Dashboard.ChartMatchesStats | components/Dashboard.tsx:24-54 | the monthly purchase figures sum to the purchase total and the monthly sale figures to the sales total |
| Dashboard.ChartOfNothing | components/Dashboard.tsx:41-58 | no entries give no buckets |
| TransactionList.PartyName | components/TransactionList.tsx:16 | never empty; the first matching party's name when that name is not empty, otherwise "Unknown" |
| TransactionList.NameOfFirstMatch | components/TransactionList.tsx:16 | the name shown is that of the first party with the id, or "Unknown" if its name is empty |
| TransactionList.NameOfMissingParty | components/TransactionList.tsx:16 | an id no party has shows as "Unknown" |
| TransactionList.Lower | components/TransactionList.tsx:20-21 | same length, no capital left, and each character lower-cased on its own |
| TransactionList.LowerIdempotent | components/TransactionList.tsx:20-21 | lower-casing twice is lower-casing once |
| TransactionList.Includes | components/TransactionList.tsx:21 | true exactly when the term occurs at some position of the name |
| TransactionList.FilteredEntries | components/TransactionList.tsx:18-25 | a subsequence of the entries in order; an entry is shown exactly when its party name, lower-cased, contains the lower-cased term and the selector is "all" or its type, and then as many times as it occurs |
| TransactionList.EmptySearchShowsAll | components/TransactionList.tsx:21-22 | an empty term with every type selected shows every entry |
| TransactionList.EmptySearchIsTypeView | components/TransactionList.tsx:22 | an empty term with one type selected shows exactly that type's entries |
| TransactionList.SearchIgnoresCase | components/TransactionList.tsx:21 | a term and its lower-cased form show the same entries |
| TransactionList.NameCaseIgnored | components/TransactionList.tsx:20 | names equal up to case show the same entries |
| TransactionList.MissingPartiesMatchUnknown | components/TransactionList.tsx:16-21 | the entries of parties missing from the directory are found by the term "UNKNOWN" |
| TransactionList.TypeName | components/TransactionList.tsx:32 | the type column reads "PURCHASE" exactly for a purchase and "SALE" exactly for a sale |
| TransactionList.CsvRow | components/TransactionList.tsx:29-38 | a row has one field per header |
| TransactionList.CsvRowColumns | components/TransactionList.tsx:28-38 | the headers are Date, Party, Type, Quantity, Fat, SNF, Rate, Amount, and each row holds, under them, the date, the party name, the type, and the shown quantity, FAT, SNF, rate and amount |
| TransactionList.CsvBody | components/TransactionList.tsx:28-39 | one comma-joined row per shown entry, in the same order |
| TransactionList.CsvLines | components/TransactionList.tsx:28-40 | the header line first, then one comma-joined row per shown entry, in order |
| TransactionList.CsvContent | components/TransactionList.tsx:40 | the text starts with the comma-joined header line, and is exactly that line when no entry is shown |
| TransactionList.HeaderLineIsOneLine | components/TransactionList.tsx:28 | the joined header line holds no newline |
| TransactionList.RowLineIsOneLine | components/TransactionList.tsx:29-40 | a row whose fields hold no newline joins to a line with no newline |
| TransactionList.CsvHasOneLinePerEntry | components/TransactionList.tsx:27-40 | when no field holds a newline, splitting the CSV text at newlines gives the header line and one line per shown entry, in order |
| TransactionList.CsvLineHasEightFields | components/TransactionList.tsx:29-40 | when no field of an entry's row holds a comma, its line splits back into the row's eight fields in header order |
| TransactionList.HeaderLineHasEightFields | components/TransactionList.tsx:28-40 | the header line splits back into the eight header names |
| TransactionList.CommaInNameAddsField | components/TransactionList.tsx:31-40 | fields are not quoted: a party name with one comma gives a line of nine fields |
| Seqs.Filter | components/BillingReport.tsx:25 | the result keeps exactly the elements that satisfy the predicate and is no longer than the input |
| Seqs.FilterCounts | components/BillingReport.tsx:25 | the result holds each satisfying element exactly as many times as the input, and no other |
| Seqs.SumFilterAsWeights | components/Dashboard.tsx:24-34 | summing a filtered sequence is summing the whole sequence with the dropped elements weighted 0 |
| Seqs.Join | components/TransactionList.tsx:40 | joining no parts gives the empty text; otherwise the text starts with the first part |
| Seqs.Split | components/TransactionList.tsx:40 | splitting gives at least one part, no part holds the separator, and a text without the separator is its own only part |
| Seqs.SumPermutation | components/BillingReport.tsx:17-18 | a sum does not depend on the order of what it sums |
| Seqs.MultisetRemoveLast | components/BillingReport.tsx:15-19 | removing the last element of one permutation and the same element from the other, wherever it sits, leaves two permutations |
| Seqs.Keys | components/BillingReport.tsx:16-22 | the keys in the order they are first inserted: no repeats, and exactly the keys of the elements |
| Seqs.GroupTotalOfKeys | components/BillingReport.tsx:15-22 | summing each key's group over all keys is the sum over the whole sequence |
| Seqs.SplitJoin | components/TransactionList.tsx:40 | splitting a join gives back the parts when none holds the separator |

## Left out

- Floating point. Numbers are exact reals, so binary representation error is not modelled. Neither is `toFixed` rounding ties away from zero on negative values where `Math.round` rounds them up. The model uses round-half-up throughout, which matches both functions on non-negative values.
- Number parsing. `parseFloat` is not modelled. A form field is `Some(value)` when it parses and `None` when it is empty or does not parse. `None` stands for NaN in the submit checks (see Findings) and for 0 in the preview (`|| 0`).
- Rounding.MathRound: Java's `Math.round(double)` returns a `long`. It saturates at the ends of the `long` range and sends NaN to 0. The model rounds exact reals without a bound. Readings and prices lie far inside that range, and NaN is not a real.
- `MilkController.CreateEntry`: a null `Double` unboxed in Java throws `NullPointerException`. This is modelled as the `NullPointer` response, together with the writes made before it. `getAllEntries`, `deleteEntry` and `MilkEntryRepository` are Spring Data calls and are not modelled. `save` hands back the entry it was given.
- `services/api.ts` is network and `localStorage` I/O and is not modelled. `saveEntry` and `deleteEntry` are taken to succeed, and `saveEntry` returns its argument. A real back end answers with the entry it stored, and that entry carries the server's SNF. For CLR 0 and FAT 6 that SNF is 1.90, where the form previews 0 (see `MilkController.ServerIgnoresZeroClr` and `MilkController.ServerSnfExample`). The model does not carry that reply back into the ledger. `loadData` and the `localStorage` writes of the party directory are left out for the same reason.
- Ids, dates and months are parameters: `crypto.randomUUID` becomes `newId`, and `new Date()` becomes `today`. The locale's short month name of a date (`toLocaleString`) becomes the function parameter `monthOf`, from dates to month names, applied to each entry's date.
- Dictionary order: `Object.entries` and `Object.values` are modelled as insertion order. JavaScript puts integer-like keys first. Party UUIDs and month names are never integer-like, so the model does not cover that case.
- TransactionList.Lower: `toLowerCase` is modelled for the Latin letters A to Z only. Other scripts and special case mappings are left out.
- TransactionList.CsvRow: turning a number into text is the parameter `show`. The CSV download itself (`Blob`, object URL, link click) is DOM I/O and is left out.
- `confirm()` before a delete, `async`/`await` ordering, and the loading flag are left out.
- The settings page that edits `AppConfig` is left out. The model takes the configuration as given, with `DEFAULT_CONFIG` as its initial value.
- JSX rendering, navigation, icons, charts and display formatting (`toLocaleString`, `toFixed` for display) have no behaviour to verify.

## Findings

| source | as written | input that shows it | evidently intended | confidence | as-written member | corrected member |
|---|---|---|---|---|---|---|
| components/MilkForm.tsx:52-53 | `parseFloat(q) <= 0` and `parseFloat(f) < 0 \|\| parseFloat(f) > 15` are false for NaN, so the handler's own checks let an empty or unparseable quantity or FAT through, and the entry then stores NaN. The party select, the quantity input and the FAT input carry `required` (components/MilkForm.tsx:104, 134, 146), and a `type="number"` input holding text that does not parse reads as empty, so a browser that validates the form never lets such a submit reach the handler. The gap shows only when the handler runs without that validation. `MilkForm.SubmitCheckAgreesWhenParsed` shows that the checks as written and as intended agree on every form whose quantity and FAT parse, which covers everything the validating browser lets through. | party "p1", quantity empty, FAT 6, CLR 28, submitted without the browser's form validation | the handler accepts a submit only with a quantity above 0 and a FAT from 0 to 15, whatever the browser does | low, not executed | MilkForm.SubmitCheckAsWritten, MilkForm.BlankQuantityPassesAsWritten | MilkForm.SubmitCheck (used by MilkForm.EntryForm.HandleSubmit) |
