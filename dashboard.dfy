/** The dashboard's figures: purchase and sale totals, litres collected,
    profit, and the per-month purchase and sale amounts behind the charts.
    The month of an entry is the locale's short month name of its date, a
    library call, so it is a parameter `monthOf` from dates to month names
    here: two entries of the same date share a bucket. */
module Dashboard {
  import opened Types
  import Seqs

  datatype Stats = Stats(totalPurchase: real, totalSales: real, totalQty: real, profit: real)

  datatype MonthBucket = MonthBucket(month: string, purchase: real, sale: real)

  const IsPurchase: MilkEntry -> bool := (e: MilkEntry) => e.kind == Purchase
  const IsSale: MilkEntry -> bool := (e: MilkEntry) => e.kind == Sale

  /** What a bucket's `purchase` and `sale` fields take from one entry:
      its amount goes to `purchase` for a purchase and to `sale` otherwise. */
  const PurchaseAmount: MilkEntry -> real := (e: MilkEntry) => if e.kind == Purchase then e.amount else 0.0
  const SaleAmount: MilkEntry -> real := (e: MilkEntry) => if e.kind == Purchase then 0.0 else e.amount
  /** The litres an entry adds to the collected quantity. */
  const PurchaseQuantity: MilkEntry -> real := (e: MilkEntry) => if e.kind == Purchase then e.quantity else 0.0

  /** The sum of `amount` over the purchases: each entry weighs its amount
      when it is a purchase and nothing otherwise. */
  function TotalPurchase(entries: seq<MilkEntry>): (total: real)
    ensures total == Seqs.Sum(PurchaseAmount, entries)
  {
    Seqs.SumFilterAsWeights(Amount, IsPurchase, PurchaseAmount, entries);
    Seqs.Sum(Amount, Seqs.Filter(IsPurchase, entries))
  }

  /** The sum of `amount` over the sales. */
  function TotalSales(entries: seq<MilkEntry>): (total: real)
    ensures total == Seqs.Sum(SaleAmount, entries)
  {
    Seqs.SumFilterAsWeights(Amount, IsSale, SaleAmount, entries);
    Seqs.Sum(Amount, Seqs.Filter(IsSale, entries))
  }

  /** The litres collected: `quantity` summed over the purchases only. */
  function TotalQty(entries: seq<MilkEntry>): (total: real)
    ensures total == Seqs.Sum(PurchaseQuantity, entries)
  {
    Seqs.SumFilterAsWeights(Quantity, IsPurchase, PurchaseQuantity, entries);
    Seqs.Sum(Quantity, Seqs.Filter(IsPurchase, entries))
  }

  /** `stats`. */
  function ComputeStats(entries: seq<MilkEntry>): (s: Stats)
    ensures s.totalPurchase == TotalPurchase(entries) && s.totalSales == TotalSales(entries)
    ensures s.totalQty == TotalQty(entries)
    ensures s.profit == s.totalSales - s.totalPurchase
  {
    var totalPurchase := TotalPurchase(entries);
    var totalSales := TotalSales(entries);
    var totalQty := TotalQty(entries);
    var profit := totalSales - totalPurchase;
    Stats(totalPurchase, totalSales, totalQty, profit)
  }

  /** No entries, all-zero figures. */
  lemma StatsOfNothing()
    ensures ComputeStats([]) == Stats(0.0, 0.0, 0.0, 0.0)
  {
  }

  function AddStats(s: Stats, t: Stats): Stats
  {
    Stats(s.totalPurchase + t.totalPurchase, s.totalSales + t.totalSales, s.totalQty + t.totalQty, s.profit + t.profit)
  }

  /** The purchase total of two batches is the sum of their purchase totals. */
  lemma TotalPurchaseAppend(a: seq<MilkEntry>, b: seq<MilkEntry>)
    ensures TotalPurchase(a + b) == TotalPurchase(a) + TotalPurchase(b)
  {
    Seqs.SumFilterAppend(Amount, IsPurchase, a, b);
  }

  /** The sales total of two batches is the sum of their sales totals. */
  lemma TotalSalesAppend(a: seq<MilkEntry>, b: seq<MilkEntry>)
    ensures TotalSales(a + b) == TotalSales(a) + TotalSales(b)
  {
    Seqs.SumFilterAppend(Amount, IsSale, a, b);
  }

  /** The collected quantity of two batches is the sum of their quantities. */
  lemma TotalQtyAppend(a: seq<MilkEntry>, b: seq<MilkEntry>)
    ensures TotalQty(a + b) == TotalQty(a) + TotalQty(b)
  {
    Seqs.SumFilterAppend(Quantity, IsPurchase, a, b);
  }

  /** The figures of two batches of entries add up. */
  lemma StatsAppend(a: seq<MilkEntry>, b: seq<MilkEntry>)
    ensures ComputeStats(a + b) == AddStats(ComputeStats(a), ComputeStats(b))
  {
    TotalPurchaseAppend(a, b);
    TotalSalesAppend(a, b);
    TotalQtyAppend(a, b);
  }

  /** Every entry's amount is a purchase or a sale, never both. */
  lemma PurchasesAndSalesMakeUpTheTurnover(entries: seq<MilkEntry>)
    ensures TotalPurchase(entries) + TotalSales(entries) == Seqs.Sum(Amount, entries)
  {
    SplitTurnover(entries);
  }

  lemma {:induction false} SplitTurnover(entries: seq<MilkEntry>)
    ensures Seqs.Sum(PurchaseAmount, entries) + Seqs.Sum(SaleAmount, entries) == Seqs.Sum(Amount, entries)
    decreases |entries|
  {
    if entries != [] {
      SplitTurnover(entries[..|entries| - 1]);
    }
  }

  /** An entry's month: the month name of its date. */
  function MonthKey(monthOf: string -> string): MilkEntry -> string
  {
    (e: MilkEntry) => monthOf(e.date)
  }

  /** The months present, in order of first appearance. */
  function Months(monthOf: string -> string, entries: seq<MilkEntry>): seq<string>
  {
    Seqs.Keys(MonthKey(monthOf), entries)
  }

  /** What the bucket of month `m` holds, by definition. */
  function BucketFor(monthOf: string -> string, m: string, entries: seq<MilkEntry>): MonthBucket
  {
    var mine := Seqs.Filter(Seqs.KeyIs(MonthKey(monthOf), m), entries);
    MonthBucket(m, Seqs.Sum(PurchaseAmount, mine), Seqs.Sum(SaleAmount, mine))
  }

  /** The buckets as a function of the entries (what ChartData returns). */
  function Chart(monthOf: string -> string, entries: seq<MilkEntry>): seq<MonthBucket>
  {
    var ms := Months(monthOf, entries);
    seq(|ms|, i requires 0 <= i < |ms| => BucketFor(monthOf, ms[i], entries))
  }

  /** One entry credited to its month's bucket: its amount goes to
      `purchase` for a purchase and to `sale` otherwise. */
  function Credit(b: MonthBucket, e: MilkEntry): MonthBucket
  {
    if e.kind == Purchase then b.(purchase := b.purchase + e.amount)
    else b.(sale := b.sale + e.amount)
  }

  /** One more entry changes the bucket of its own month by `Credit` and no
      other month's bucket. */
  lemma BucketSnoc(monthOf: string -> string, s: seq<MilkEntry>, e: MilkEntry, m: string)
    ensures BucketFor(monthOf, m, s + [e])
            == if monthOf(e.date) == m then Credit(BucketFor(monthOf, m, s), e) else BucketFor(monthOf, m, s)
  {
    assert (s + [e])[..|s|] == s;
  }

  /** One more entry adds its month at the end if it is a new month. */
  lemma MonthsSnoc(monthOf: string -> string, s: seq<MilkEntry>, e: MilkEntry)
    ensures Months(monthOf, s + [e])
            == if monthOf(e.date) in Months(monthOf, s) then Months(monthOf, s)
               else Months(monthOf, s) + [monthOf(e.date)]
  {
    assert (s + [e])[..|s|] == s;
  }

  /** A month not yet seen has an empty bucket. */
  lemma UnseenBucket(monthOf: string -> string, s: seq<MilkEntry>, m: string)
    requires m !in Months(monthOf, s)
    ensures BucketFor(monthOf, m, s) == MonthBucket(m, 0.0, 0.0)
  {
    Seqs.AbsentKeySelectsNothing(MonthKey(monthOf), m, s);
  }

  /** The dictionary after one turn of the `forEach` of `chartData`: the
      month's bucket created if it is missing, then the entry credited to it. */
  function ChartNext(monthOf: string -> string, monthlyMap: map<string, MonthBucket>, e: MilkEntry): map<string, MonthBucket>
  {
    var month := monthOf(e.date);
    var created := if month in monthlyMap then monthlyMap else monthlyMap[month := MonthBucket(month, 0.0, 0.0)];
    created[month := Credit(created[month], e)]
  }

  /** The dictionary after the `forEach` has run over `s`. */
  function ChartMap(monthOf: string -> string, s: seq<MilkEntry>): map<string, MonthBucket>
    decreases |s|
  {
    if s == [] then map[] else ChartNext(monthOf, ChartMap(monthOf, s[..|s| - 1]), s[|s| - 1])
  }

  /** One turn creates the entry's month bucket if it is missing, credits
      the entry to it, and leaves every other month's bucket alone. */
  lemma ChartTurn(monthOf: string -> string, monthlyMap: map<string, MonthBucket>, e: MilkEntry)
    ensures ChartNext(monthOf, monthlyMap, e).Keys == monthlyMap.Keys + {monthOf(e.date)}
    ensures ChartNext(monthOf, monthlyMap, e)[monthOf(e.date)]
            == Credit(if monthOf(e.date) in monthlyMap then monthlyMap[monthOf(e.date)] else MonthBucket(monthOf(e.date), 0.0, 0.0), e)
    ensures forall m :: m in monthlyMap && m != monthOf(e.date) ==> ChartNext(monthOf, monthlyMap, e)[m] == monthlyMap[m]
  {
  }

  /** Running the `forEach` over one more entry is one more turn. */
  lemma ChartMapSnoc(monthOf: string -> string, s: seq<MilkEntry>, e: MilkEntry)
    ensures ChartMap(monthOf, s + [e]) == ChartNext(monthOf, ChartMap(monthOf, s), e)
  {
    assert (s + [e])[..|s|] == s;
  }

  /** The dictionary has a bucket for exactly the months of the entries. */
  lemma {:induction false} ChartMapDomain(monthOf: string -> string, s: seq<MilkEntry>, m: string)
    ensures m in ChartMap(monthOf, s) <==> m in Months(monthOf, s)
    decreases |s|
  {
    if s != [] {
      var init, e := s[..|s| - 1], s[|s| - 1];
      assert s == init + [e];
      ChartMapDomain(monthOf, init, m);
      MonthsSnoc(monthOf, init, e);
    }
  }

  /** Each month's bucket in the dictionary is the bucket the month's entries define. */
  lemma {:induction false} ChartMapBucket(monthOf: string -> string, s: seq<MilkEntry>, m: string)
    requires m in ChartMap(monthOf, s)
    ensures ChartMap(monthOf, s)[m] == BucketFor(monthOf, m, s)
    decreases |s|
  {
    var init, e := s[..|s| - 1], s[|s| - 1];
    assert s == init + [e];
    BucketSnoc(monthOf, init, e, m);
    if m in ChartMap(monthOf, init) {
      ChartMapBucket(monthOf, init, m);
    } else {
      ChartMapDomain(monthOf, init, m);
      UnseenBucket(monthOf, init, m);
    }
  }

  /** Reading the dictionary out in month order gives each month's bucket. */
  lemma ChartMapReadOut(monthOf: string -> string, s: seq<MilkEntry>)
    ensures forall j :: 0 <= j < |Months(monthOf, s)| ==>
              && Months(monthOf, s)[j] in ChartMap(monthOf, s)
              && ChartMap(monthOf, s)[Months(monthOf, s)[j]] == BucketFor(monthOf, Months(monthOf, s)[j], s)
  {
    forall j | 0 <= j < |Months(monthOf, s)|
      ensures Months(monthOf, s)[j] in ChartMap(monthOf, s)
      ensures ChartMap(monthOf, s)[Months(monthOf, s)[j]] == BucketFor(monthOf, Months(monthOf, s)[j], s)
    {
      ChartMapDomain(monthOf, s, Months(monthOf, s)[j]);
      ChartMapBucket(monthOf, s, Months(monthOf, s)[j]);
    }
  }

  /** One more turn of the loop: the dictionary takes one more turn, and the
      month joins the order exactly when the dictionary lacked it. */
  lemma ChartStep(monthOf: string -> string, s: seq<MilkEntry>, e: MilkEntry)
    ensures ChartMap(monthOf, s + [e]) == ChartNext(monthOf, ChartMap(monthOf, s), e)
    ensures Months(monthOf, s + [e])
            == if monthOf(e.date) in ChartMap(monthOf, s) then Months(monthOf, s) else Months(monthOf, s) + [monthOf(e.date)]
  {
    ChartMapSnoc(monthOf, s, e);
    MonthsSnoc(monthOf, s, e);
    ChartMapDomain(monthOf, s, monthOf(e.date));
  }

  /** `chartData`: a dictionary from month to bucket, created on the first
      entry of a month and credited for each entry, read out in insertion order. */
  method ChartData(entries: seq<MilkEntry>, monthOf: string -> string) returns (buckets: seq<MonthBucket>)
    ensures |buckets| == |Months(monthOf, entries)|
    ensures forall i :: 0 <= i < |buckets| ==> buckets[i] == BucketFor(monthOf, Months(monthOf, entries)[i], entries)
  {
    var monthlyMap: map<string, MonthBucket> := map[];
    var order: seq<string> := [];
    var i := 0;
    while i < |entries|
      invariant 0 <= i <= |entries|
      invariant monthlyMap == ChartMap(monthOf, entries[..i])
      invariant order == Months(monthOf, entries[..i])
    {
      var entry := entries[i];
      Seqs.TakeSnoc(entries, i);
      ChartStep(monthOf, entries[..i], entry);
      var month := monthOf(entry.date);
      if month !in monthlyMap {
        monthlyMap := monthlyMap[month := MonthBucket(month, 0.0, 0.0)];
        order := order + [month];
      }
      monthlyMap := monthlyMap[month := Credit(monthlyMap[month], entry)];
      i := i + 1;
    }
    assert entries[..i] == entries;
    ChartMapReadOut(monthOf, entries);
    buckets := seq(|order|, j requires 0 <= j < |order| => monthlyMap[order[j]]);
  }

  const BucketPurchase: MonthBucket -> real := (b: MonthBucket) => b.purchase
  const BucketSale: MonthBucket -> real := (b: MonthBucket) => b.sale

  /** The monthly purchase figures add up to the purchase total and the
      monthly sale figures to the sales total. */
  lemma ChartMatchesStats(monthOf: string -> string, entries: seq<MilkEntry>)
    ensures Seqs.Sum(BucketPurchase, Chart(monthOf, entries)) == ComputeStats(entries).totalPurchase
    ensures Seqs.Sum(BucketSale, Chart(monthOf, entries)) == ComputeStats(entries).totalSales
  {
    var key, ms, chart := MonthKey(monthOf), Months(monthOf, entries), Chart(monthOf, entries);
    Seqs.SumOfGroupRows(key, PurchaseAmount, ms, entries, BucketPurchase, chart);
    Seqs.GroupTotalOfKeys(key, PurchaseAmount, entries);
    Seqs.SumOfGroupRows(key, SaleAmount, ms, entries, BucketSale, chart);
    Seqs.GroupTotalOfKeys(key, SaleAmount, entries);
  }

  /** No entries, no buckets. */
  lemma ChartOfNothing(monthOf: string -> string)
    ensures Chart(monthOf, []) == []
  {
  }
}
