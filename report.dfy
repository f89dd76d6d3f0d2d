/** The sales report of `ReportRepository`, as the meaning of its two SQL
    queries over an in-memory copy of the tables.

    The bounds arrive as text; the database casts them to timestamps, which is
    the parameter `cast` (`None` when the text is not a timestamp, in which case
    the query, and so the report, fails). Any other failure of one of the two
    queries (a lost connection, say) is the parameter `fault`. */
module Report {
  import opened Common
  import opened Models

  datatype ReportDb = ReportDb(transactions: seq<TransactionRow>, details: seq<DetailRow>, products: map<int, Product>)

  datatype ReportError = InvalidTimestamp(text: string) | QueryError(message: string)

  /** Which query fails for a reason other than a bound that does not cast.
      A failure of the top-product query here is an error other than
      `sql.ErrNoRows`, which is no failure but the absent top product. */
  datatype QueryFault = NoQueryFault | TotalsQueryFails(message: string) | TopQueryFails(message: string)

  /** created_at >= $1 AND created_at <= $2 AND deleted_at IS NULL */
  predicate Included(t: TransactionRow, lo: int, hi: int) {
    lo <= t.createdAt <= hi && t.deletedAt.None?
  }

  /** COALESCE(SUM(total_amount), 0) */
  function Revenue(txs: seq<TransactionRow>, lo: int, hi: int): (r: int)
    ensures (forall k :: 0 <= k < |txs| ==> txs[k].totalAmount >= 0) ==> r >= 0
    ensures (forall k :: 0 <= k < |txs| ==> !Included(txs[k], lo, hi)) ==> r == 0
    decreases |txs|
  {
    if |txs| == 0 then 0
    else Revenue(txs[..|txs| - 1], lo, hi) + (if Included(txs[|txs| - 1], lo, hi) then txs[|txs| - 1].totalAmount else 0)
  }

  /** COUNT(*) */
  function Count(txs: seq<TransactionRow>, lo: int, hi: int): (r: nat)
    ensures r <= |txs|
    ensures r == 0 <==> forall k :: 0 <= k < |txs| ==> !Included(txs[k], lo, hi)
    decreases |txs|
  {
    if |txs| == 0 then 0
    else Count(txs[..|txs| - 1], lo, hi) + (if Included(txs[|txs| - 1], lo, hi) then 1 else 0)
  }

  /** One joined row (product id, quantity) of the top-product query. */
  datatype Sold = Sold(productId: int, quantity: int)

  /** The rows `transaction_details td JOIN transactions t ON td.transaction_id = t.id`
      yields for one detail, restricted to the included transactions. */
  function JoinTransactions(d: DetailRow, txs: seq<TransactionRow>, lo: int, hi: int): seq<Sold>
    decreases |txs|
  {
    if |txs| == 0 then []
    else
      var t := txs[|txs| - 1];
      JoinTransactions(d, txs[..|txs| - 1], lo, hi)
        + (if t.id == d.transactionId && Included(t, lo, hi) then [Sold(d.productId, d.quantity)] else [])
  }

  /** The joined rows of the top-product query; `JOIN product p ON td.product_id = p.id`
      keeps only details whose product row exists, soft-deleted or not. */
  function SoldRows(db: ReportDb, lo: int, hi: int): seq<Sold>
  {
    SoldRowsOf(db.details, db.transactions, db.products, lo, hi)
  }

  function SoldRowsOf(details: seq<DetailRow>, txs: seq<TransactionRow>, products: map<int, Product>, lo: int, hi: int): seq<Sold>
    decreases |details|
  {
    if |details| == 0 then []
    else
      var d := details[|details| - 1];
      SoldRowsOf(details[..|details| - 1], txs, products, lo, hi)
        + (if d.productId in products then JoinTransactions(d, txs, lo, hi) else [])
  }

  /** SUM(td.quantity) of one group of GROUP BY p.id. */
  function QtySold(rows: seq<Sold>, id: int): int
    decreases |rows|
  {
    if |rows| == 0 then 0
    else QtySold(rows[..|rows| - 1], id) + (if rows[|rows| - 1].productId == id then rows[|rows| - 1].quantity else 0)
  }

  /** The groups: the product ids that occur in the joined rows. */
  predicate IsGroup(rows: seq<Sold>, id: int) {
    exists k :: 0 <= k < |rows| && rows[k].productId == id
  }

  /** ORDER BY qty_terjual DESC LIMIT 1 over the candidate groups `cands`: some
      group of largest total quantity (which one, among ties, is not specified). */
  function BestOf(rows: seq<Sold>, cands: seq<int>): (best: int)
    requires |cands| > 0
    ensures best in cands
    ensures forall c :: c in cands ==> QtySold(rows, c) <= QtySold(rows, best)
    decreases |cands|
  {
    if |cands| == 1 then cands[0]
    else
      var rest := BestOf(rows, cands[1..]);
      if QtySold(rows, cands[0]) >= QtySold(rows, rest) then cands[0] else rest
  }

  function Ids(rows: seq<Sold>): (ids: seq<int>)
    ensures |ids| == |rows|
    ensures forall k :: 0 <= k < |rows| ==> ids[k] == rows[k].productId
  {
    seq(|rows|, k requires 0 <= k < |rows| => rows[k].productId)
  }

  /** The top-product query: no row (`sql.ErrNoRows`) when nothing sold in range. */
  function TopSelling(db: ReportDb, lo: int, hi: int): (r: Option<TopProduct>)
    ensures r.None? <==> |SoldRows(db, lo, hi)| == 0
  {
    var rows := SoldRows(db, lo, hi);
    SoldRowsHaveProducts(db.details, db.transactions, db.products, lo, hi);
    if |rows| == 0 then None
    else
      var id := BestOf(rows, Ids(rows));
      if id in db.products then Some(TopProduct(db.products[id].name, QtySold(rows, id)))
      else None
  }

  /** `GetSalesReportByDateRange`. */
  function SalesReportByDateRange(db: ReportDb, startDate: string, endDate: string, cast: string -> Option<int>,
                                  fault: QueryFault): (r: Result<SalesReport, ReportError>)
    ensures r.Failure? <==> cast(startDate).None? || cast(endDate).None? || !fault.NoQueryFault?
    ensures cast(startDate).None? ==> r == Failure(InvalidTimestamp(startDate))
    ensures cast(startDate).Some? && cast(endDate).None? ==> r == Failure(InvalidTimestamp(endDate))
    ensures cast(startDate).Some? && cast(endDate).Some? && !fault.NoQueryFault? ==> r == Failure(QueryError(fault.message))
    ensures r.Success? ==>
      var lo, hi := cast(startDate).value, cast(endDate).value;
      && r.value.totalRevenue == Revenue(db.transactions, lo, hi)
      && r.value.totalTransaksi == Count(db.transactions, lo, hi)
      && r.value.produkTerlaris == TopSelling(db, lo, hi)
      && (r.value.produkTerlaris.None? <==> |SoldRows(db, lo, hi)| == 0)
  {
    match (cast(startDate), cast(endDate))
    case (None, _) => Failure(InvalidTimestamp(startDate))
    case (_, None) => Failure(InvalidTimestamp(endDate))
    case (Some(lo), Some(hi)) =>
      match fault
      case TotalsQueryFails(message) => Failure(QueryError(message))
      case TopQueryFails(message) => Failure(QueryError(message))
      case NoQueryFault => Success(SalesReport(Revenue(db.transactions, lo, hi), Count(db.transactions, lo, hi), TopSelling(db, lo, hi)))
  }

  /** `GetDailySalesReport`, with today's date (`time.Now().Format("2006-01-02")`) as a parameter. */
  function DailySalesReport(db: ReportDb, today: string, cast: string -> Option<int>, fault: QueryFault): (r: Result<SalesReport, ReportError>)
    ensures r.Failure? <==> cast(today + " 00:00:00").None? || cast(today + " 23:59:59").None? || !fault.NoQueryFault?
    ensures r.Success? ==>
      var lo, hi := cast(today + " 00:00:00").value, cast(today + " 23:59:59").value;
      && r.value.totalRevenue == Revenue(db.transactions, lo, hi)
      && r.value.totalTransaksi == Count(db.transactions, lo, hi)
      && r.value.produkTerlaris == TopSelling(db, lo, hi)
  {
    SalesReportByDateRange(db, today + " 00:00:00", today + " 23:59:59", cast, fault)
  }

  // ---------------------------------------------------------------------------
  // Properties
  // ---------------------------------------------------------------------------

  /** Every joined row names a product that has a row in `product`. */
  lemma {:induction false} SoldRowsHaveProducts(details: seq<DetailRow>, txs: seq<TransactionRow>, products: map<int, Product>, lo: int, hi: int)
    ensures forall k :: 0 <= k < |SoldRowsOf(details, txs, products, lo, hi)| ==>
      SoldRowsOf(details, txs, products, lo, hi)[k].productId in products
    decreases |details|
  {
    if |details| > 0 {
      var d := details[|details| - 1];
      SoldRowsHaveProducts(details[..|details| - 1], txs, products, lo, hi);
      JoinedRowsAreTheDetail(d, txs, lo, hi);
    }
  }

  lemma {:induction false} JoinedRowsAreTheDetail(d: DetailRow, txs: seq<TransactionRow>, lo: int, hi: int)
    ensures forall k :: 0 <= k < |JoinTransactions(d, txs, lo, hi)| ==>
      JoinTransactions(d, txs, lo, hi)[k] == Sold(d.productId, d.quantity)
    decreases |txs|
  {
    if |txs| > 0 {
      JoinedRowsAreTheDetail(d, txs[..|txs| - 1], lo, hi);
    }
  }

  /** The top product: absent exactly when no detail of an included transaction
      joins a product row; otherwise it is a group of largest total quantity, its
      `QtyTerjual` is that group's total and its name is the product's current
      name (not the one recorded at sale time). */
  lemma TopSellingIsMaximal(db: ReportDb, lo: int, hi: int)
    ensures TopSelling(db, lo, hi).None? <==> |SoldRows(db, lo, hi)| == 0
    ensures TopSelling(db, lo, hi).Some? ==>
      var rows := SoldRows(db, lo, hi);
      exists id :: IsGroup(rows, id) && id in db.products
        && TopSelling(db, lo, hi).value == TopProduct(db.products[id].name, QtySold(rows, id))
        && forall g :: IsGroup(rows, g) ==> QtySold(rows, g) <= QtySold(rows, id)
  {
    var rows := SoldRows(db, lo, hi);
    SoldRowsHaveProducts(db.details, db.transactions, db.products, lo, hi);
    if |rows| > 0 {
      var ids := Ids(rows);
      var id := BestOf(rows, ids);
      var k :| 0 <= k < |ids| && ids[k] == id;
      assert IsGroup(rows, id);
      forall g | IsGroup(rows, g)
        ensures QtySold(rows, g) <= QtySold(rows, id)
      {
        var j :| 0 <= j < |rows| && rows[j].productId == g;
        assert ids[j] == g;
      }
    }
  }

  /** Adding a transaction row adds its amount and one to the count when it is in
      range and not deleted, and nothing otherwise; in particular a checkout
      recorded at a time inside the range raises the revenue by its total. */
  lemma RevenueAppend(txs: seq<TransactionRow>, t: TransactionRow, lo: int, hi: int)
    ensures Revenue(txs + [t], lo, hi) == Revenue(txs, lo, hi) + (if Included(t, lo, hi) then t.totalAmount else 0)
    ensures Count(txs + [t], lo, hi) == Count(txs, lo, hi) + (if Included(t, lo, hi) then 1 else 0)
  {
    assert (txs + [t])[..|txs|] == txs;
  }

  /** The totals and the joined rows of a table split in two are those of the
      two parts. */
  lemma SplitTransactions(a: seq<TransactionRow>, b: seq<TransactionRow>, d: DetailRow, lo: int, hi: int)
    ensures Revenue(a + b, lo, hi) == Revenue(a, lo, hi) + Revenue(b, lo, hi)
    ensures Count(a + b, lo, hi) == Count(a, lo, hi) + Count(b, lo, hi)
    ensures JoinTransactions(d, a + b, lo, hi) == JoinTransactions(d, a, lo, hi) + JoinTransactions(d, b, lo, hi)
  {
    SplitRevenue(a, b, lo, hi);
    SplitCount(a, b, lo, hi);
    SplitJoin(a, b, d, lo, hi);
  }

  lemma {:induction false} SplitRevenue(a: seq<TransactionRow>, b: seq<TransactionRow>, lo: int, hi: int)
    ensures Revenue(a + b, lo, hi) == Revenue(a, lo, hi) + Revenue(b, lo, hi)
    decreases |b|
  {
    if |b| == 0 {
      assert a + b == a;
    } else {
      SplitRevenue(a, b[..|b| - 1], lo, hi);
      assert (a + b)[..|a + b| - 1] == a + b[..|b| - 1];
    }
  }

  lemma {:induction false} SplitCount(a: seq<TransactionRow>, b: seq<TransactionRow>, lo: int, hi: int)
    ensures Count(a + b, lo, hi) == Count(a, lo, hi) + Count(b, lo, hi)
    decreases |b|
  {
    if |b| == 0 {
      assert a + b == a;
    } else {
      SplitCount(a, b[..|b| - 1], lo, hi);
      assert (a + b)[..|a + b| - 1] == a + b[..|b| - 1];
    }
  }

  lemma {:induction false} SplitJoin(a: seq<TransactionRow>, b: seq<TransactionRow>, d: DetailRow, lo: int, hi: int)
    ensures JoinTransactions(d, a + b, lo, hi) == JoinTransactions(d, a, lo, hi) + JoinTransactions(d, b, lo, hi)
    decreases |b|
  {
    if |b| == 0 {
      assert a + b == a;
    } else {
      SplitJoin(a, b[..|b| - 1], d, lo, hi);
      assert (a + b)[..|a + b| - 1] == a + b[..|b| - 1];
    }
  }

  /** Soft-deleted transactions count nowhere: removing one, wherever it sits in
      the table, changes neither the totals nor the joined rows the top product
      is chosen from. */
  lemma DeletedTransactionsIgnored(a: seq<TransactionRow>, t: TransactionRow, b: seq<TransactionRow>, d: DetailRow, lo: int, hi: int)
    requires t.deletedAt.Some?
    ensures Revenue(a + [t] + b, lo, hi) == Revenue(a + b, lo, hi)
    ensures Count(a + [t] + b, lo, hi) == Count(a + b, lo, hi)
    ensures JoinTransactions(d, a + [t] + b, lo, hi) == JoinTransactions(d, a + b, lo, hi)
  {
    var at := a + [t];
    assert at[..|at| - 1] == a && at[|at| - 1] == t;
    assert !Included(t, lo, hi);
    assert Revenue(at, lo, hi) == Revenue(a, lo, hi);
    assert Count(at, lo, hi) == Count(a, lo, hi);
    assert JoinTransactions(d, at, lo, hi) == JoinTransactions(d, a, lo, hi);
    SplitRevenue(at, b, lo, hi);
    SplitRevenue(a, b, lo, hi);
    SplitCount(at, b, lo, hi);
    SplitCount(a, b, lo, hi);
    SplitJoin(at, b, d, lo, hi);
    SplitJoin(a, b, d, lo, hi);
  }

  lemma {:induction false} DeletedTransactionRowsIgnored(details: seq<DetailRow>, a: seq<TransactionRow>, t: TransactionRow,
                                                         b: seq<TransactionRow>, products: map<int, Product>, lo: int, hi: int)
    requires t.deletedAt.Some?
    ensures SoldRowsOf(details, a + [t] + b, products, lo, hi) == SoldRowsOf(details, a + b, products, lo, hi)
    decreases |details|
  {
    if |details| > 0 {
      DeletedTransactionRowsIgnored(details[..|details| - 1], a, t, b, products, lo, hi);
      DeletedTransactionsIgnored(a, t, b, details[|details| - 1], lo, hi);
    }
  }

  /** A whole report over a table with one more, soft-deleted, transaction row
      at any position `k` is the report without it. */
  lemma DeletedTransactionLeavesReport(db: ReportDb, t: TransactionRow, k: nat, startDate: string, endDate: string, cast: string -> Option<int>,
                                        fault: QueryFault)
    requires t.deletedAt.Some? && k <= |db.transactions|
    ensures SalesReportByDateRange(db.(transactions := db.transactions[..k] + [t] + db.transactions[k..]), startDate, endDate, cast, fault)
         == SalesReportByDateRange(db, startDate, endDate, cast, fault)
  {
    var a, b := db.transactions[..k], db.transactions[k..];
    assert a + b == db.transactions;
    if cast(startDate).Some? && cast(endDate).Some? {
      var lo, hi := cast(startDate).value, cast(endDate).value;
      DeletedTransactionsIgnored(a, t, b, DetailRow(0, 0, 0, 0), lo, hi);
      DeletedTransactionRowsIgnored(db.details, a, t, b, db.products, lo, hi);
    }
  }

  /** Soft-deleting a product changes nothing in the report: the product join
      does not look at `deleted_at`. */
  lemma {:induction false} SoldRowsIgnoreProductDeletion(details: seq<DetailRow>, txs: seq<TransactionRow>, products: map<int, Product>,
                                                          id: int, when: int, lo: int, hi: int)
    requires id in products
    ensures SoldRowsOf(details, txs, products[id := products[id].(deletedAt := Some(when))], lo, hi)
         == SoldRowsOf(details, txs, products, lo, hi)
    decreases |details|
  {
    if |details| > 0 {
      SoldRowsIgnoreProductDeletion(details[..|details| - 1], txs, products, id, when, lo, hi);
    }
  }

  lemma DeletedProductStillReported(db: ReportDb, id: int, when: int, startDate: string, endDate: string, cast: string -> Option<int>,
                                    fault: QueryFault)
    requires id in db.products
    ensures SalesReportByDateRange(db.(products := db.products[id := db.products[id].(deletedAt := Some(when))]), startDate, endDate, cast, fault)
         == SalesReportByDateRange(db, startDate, endDate, cast, fault)
  {
    if cast(startDate).Some? && cast(endDate).Some? {
      SoldRowsIgnoreProductDeletion(db.details, db.transactions, db.products, id, when, cast(startDate).value, cast(endDate).value);
    }
  }

  lemma {:induction false} NothingIncluded(txs: seq<TransactionRow>, lo: int, hi: int)
    requires forall k :: 0 <= k < |txs| ==> !Included(txs[k], lo, hi)
    ensures Revenue(txs, lo, hi) == 0 && Count(txs, lo, hi) == 0
    ensures forall d: DetailRow :: JoinTransactions(d, txs, lo, hi) == []
    decreases |txs|
  {
    if |txs| > 0 {
      NothingIncluded(txs[..|txs| - 1], lo, hi);
    }
  }

  lemma {:induction false} NoSoldRows(details: seq<DetailRow>, txs: seq<TransactionRow>, products: map<int, Product>, lo: int, hi: int)
    requires forall d: DetailRow :: JoinTransactions(d, txs, lo, hi) == []
    ensures SoldRowsOf(details, txs, products, lo, hi) == []
    decreases |details|
  {
    if |details| > 0 {
      NoSoldRows(details[..|details| - 1], txs, products, lo, hi);
    }
  }

  /** A range with no live transaction in it: revenue 0, count 0 and no top
      product, unless a query fails. */
  lemma EmptyRangeReport(db: ReportDb, startDate: string, endDate: string, cast: string -> Option<int>, fault: QueryFault)
    requires cast(startDate).Some? && cast(endDate).Some?
    requires forall k :: 0 <= k < |db.transactions| ==> !Included(db.transactions[k], cast(startDate).value, cast(endDate).value)
    ensures SalesReportByDateRange(db, startDate, endDate, cast, fault)
         == if fault.NoQueryFault? then Success(SalesReport(0, 0, None)) else Failure(QueryError(fault.message))
  {
    var lo, hi := cast(startDate).value, cast(endDate).value;
    NothingIncluded(db.transactions, lo, hi);
    NoSoldRows(db.details, db.transactions, db.products, lo, hi);
  }
}
