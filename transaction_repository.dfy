/** The checkout engine: `TransactionRepository.CreateTransaction`.

    The database is a `Store` object holding the product table, the
    transaction and detail tables and the serial counter of transaction ids.
    A checkout runs four passes (validate, compute, deduct stock, persist)
    inside one database transaction; the tables are written only at commit,
    so every failing path leaves them as they were, which is what the deferred
    rollback guarantees. The id counter is a sequence, which a rollback does
    not reset: a checkout that fails after its transaction row was inserted
    still uses up an id.

    The specification of a checkout is the function `CheckoutOutcome` together
    with `Deduct` (the new product table); the lemmas below it state what the
    source promises about them. */
module TransactionRepository {
  import opened Common
  import opened Models

  /** Which database statement fails, if any. A real database can fail at any
      statement; the checkout must then report an error and commit nothing. */
  datatype DbFault =
    | NoFault
    | BeginFails                  // db.Begin
    | LookupFails(line: nat)      // the SELECT of cart line `line` (other than "no rows")
    | StockUpdateFails(line: nat) // the UPDATE of cart line `line`
    | InsertTransactionFails      // INSERT INTO transactions
    | InsertDetailsFails          // the batched INSERT INTO transaction_details
    | CommitFails                 // tx.Commit

  datatype CheckoutError =
    | ProductNotFound(productId: int)
    | InsufficientStock(productName: string, available: int, requested: int)
    | PersistenceError

  function ErrorMessage(e: CheckoutError): string {
    match e
    case ProductNotFound(id) => "product id " + FormatInt(id) + " not found"
    case InsufficientStock(name, available, requested) =>
      "insufficient stock for product '" + name + "' (available: " + FormatInt(available)
      + ", requested: " + FormatInt(requested) + ")"
    case PersistenceError => "database error"
  }

  /** What the validation query reads for one product. */
  datatype ProductInfo = ProductInfo(name: string, price: int, stock: int)

  // ---------------------------------------------------------------------------
  // Specification functions
  // ---------------------------------------------------------------------------

  predicate Live(products: map<int, Product>, id: int) {
    id in products && products[id].deletedAt.None?
  }

  /** SELECT name, price, stock FROM product WHERE id = $1 AND deleted_at IS NULL */
  function Lookup(products: map<int, Product>, id: int): Option<ProductInfo> {
    if Live(products, id) then
      Some(ProductInfo(products[id].name, products[id].price, products[id].stock))
    else None
  }

  /** What `productData[id]` yields: the row read during validation, or Go's zero value. */
  function Snapshot(products: map<int, Product>, id: int): ProductInfo {
    match Lookup(products, id)
    case Some(info) => info
    case None => ProductInfo("", 0, 0)
  }

  /** The outcome of validating cart line `k` alone. */
  function LineError(products: map<int, Product>, items: seq<CheckoutItem>, k: nat, fault: DbFault): Option<CheckoutError>
    requires k < |items|
  {
    var item := items[k];
    if fault == LookupFails(k) then Some(PersistenceError)
    else match Lookup(products, item.productId)
      case None => Some(ProductNotFound(item.productId))
      case Some(info) =>
        if info.stock < item.quantity then Some(InsufficientStock(info.name, info.stock, item.quantity))
        else None
  }

  /** The validation pass from line `k` on: the error of the first failing line. */
  function ValidateFrom(products: map<int, Product>, items: seq<CheckoutItem>, k: nat, fault: DbFault): Option<CheckoutError>
    requires k <= |items|
    decreases |items| - k
  {
    if k == |items| then None
    else if LineError(products, items, k, fault).Some? then LineError(products, items, k, fault)
    else ValidateFrom(products, items, k + 1, fault)
  }

  function Validate(products: map<int, Product>, items: seq<CheckoutItem>, fault: DbFault): Option<CheckoutError> {
    ValidateFrom(products, items, 0, fault)
  }

  function Subtotal(products: map<int, Product>, item: CheckoutItem): int {
    Snapshot(products, item.productId).price * item.quantity
  }

  /** The compute pass's running total over a prefix of the cart. */
  function Total(products: map<int, Product>, items: seq<CheckoutItem>): int
    decreases |items|
  {
    if |items| == 0 then 0
    else Total(products, items[..|items| - 1]) + Subtotal(products, items[|items| - 1])
  }

  /** The compute pass's detail list; the transaction id is still Go's zero value. */
  function Details(products: map<int, Product>, items: seq<CheckoutItem>): seq<TransactionDetail>
    decreases |items|
  {
    if |items| == 0 then []
    else
      var item := items[|items| - 1];
      Details(products, items[..|items| - 1])
        + [TransactionDetail(0, item.productId, Snapshot(products, item.productId).name, item.quantity, Subtotal(products, item))]
  }

  function SumSubtotals(details: seq<TransactionDetail>): int
    decreases |details|
  {
    if |details| == 0 then 0 else SumSubtotals(details[..|details| - 1]) + details[|details| - 1].subtotal
  }

  /** `details[i].TransactionID = transactionID` for every i. */
  function Stamp(details: seq<TransactionDetail>, transactionId: int): (r: seq<TransactionDetail>)
    ensures |r| == |details|
  {
    seq(|details|, i requires 0 <= i < |details| => details[i].(transactionId := transactionId))
  }

  /** UPDATE product SET stock = stock - $1 WHERE id = $2 (no row: no effect). */
  function Debit(products: map<int, Product>, item: CheckoutItem): (r: map<int, Product>)
    ensures r.Keys == products.Keys
  {
    if item.productId in products then
      products[item.productId := products[item.productId].(stock := products[item.productId].stock - item.quantity)]
    else products
  }

  /** The product table after the stock pass over a prefix of the cart. */
  function Deduct(products: map<int, Product>, items: seq<CheckoutItem>): (r: map<int, Product>)
    ensures r.Keys == products.Keys
    decreases |items|
  {
    if |items| == 0 then products
    else Debit(Deduct(products, items[..|items| - 1]), items[|items| - 1])
  }

  /** The total quantity a cart requests of one product. */
  function QtyFor(items: seq<CheckoutItem>, id: int): int
    decreases |items|
  {
    if |items| == 0 then 0
    else QtyFor(items[..|items| - 1], id) + (if items[|items| - 1].productId == id then items[|items| - 1].quantity else 0)
  }

  /** Whether `fault` hits a statement the checkout of an otherwise valid cart of
      `n` lines executes (the detail insert only runs for a non-empty cart). */
  predicate FaultHits(fault: DbFault, n: nat) {
    match fault
    case NoFault => false
    case BeginFails => true
    case LookupFails(line) => line < n
    case StockUpdateFails(line) => line < n
    case InsertTransactionFails => true
    case InsertDetailsFails => n > 0
    case CommitFails => true
  }

  /** Whether the checkout reaches and completes `INSERT INTO transactions`,
      and so draws an id from the sequence. */
  predicate IdTaken(products: map<int, Product>, items: seq<CheckoutItem>, fault: DbFault) {
    && fault != BeginFails
    && Validate(products, items, fault).None?
    && !(fault.StockUpdateFails? && fault.line < |items|)
    && fault != InsertTransactionFails
  }

  /** The outcome of `CreateTransaction`, given the product table, the id the
      database will assign next, the cart and the failing statement. */
  function CheckoutOutcome(products: map<int, Product>, newId: int, items: seq<CheckoutItem>, fault: DbFault): (r: Result<Transaction, CheckoutError>)
    ensures fault == BeginFails ==> r == Failure(PersistenceError)
    ensures r.Failure? && !r.error.PersistenceError? ==> Validate(products, items, fault) == Some(r.error)
    ensures r.Success? ==> r.value.id == newId && IdTaken(products, items, fault)
    ensures IdTaken(products, items, fault) && r.Failure? ==>
      (fault == InsertDetailsFails && |items| > 0) || fault == CommitFails
  {
    if fault == BeginFails then Failure(PersistenceError)
    else match Validate(products, items, fault)
      case Some(e) => Failure(e)
      case None =>
        if FaultHits(fault, |items|) then
          ValidateFindsFirstFailingLine(products, items, 0, fault);
          assert fault.LookupFails? && fault.line < |items| ==> LineError(products, items, fault.line, fault).Some?;
          Failure(PersistenceError)
        else Success(Transaction(newId, Total(products, items), Stamp(Details(products, items), newId)))
  }

  /** The rows a list of details becomes in `transaction_details`. */
  function Rows(details: seq<TransactionDetail>): (r: seq<DetailRow>)
    ensures |r| == |details|
  {
    seq(|details|, i requires 0 <= i < |details| =>
      DetailRow(details[i].transactionId, details[i].productId, details[i].quantity, details[i].subtotal))
  }

  // ---------------------------------------------------------------------------
  // The batched detail insert
  // ---------------------------------------------------------------------------

  /** The number of the placeholder for column `column` (0..3) of detail `i`. */
  function PlaceholderNumber(i: nat, column: nat): nat {
    4 * i + column + 1
  }

  /** `fmt.Sprintf("($%d, $%d, $%d, $%d)", i*4+1, i*4+2, i*4+3, i*4+4)` */
  function PlaceholderGroup(i: nat): string {
    "($" + FormatNat(PlaceholderNumber(i, 0)) + ", $" + FormatNat(PlaceholderNumber(i, 1))
    + ", $" + FormatNat(PlaceholderNumber(i, 2)) + ", $" + FormatNat(PlaceholderNumber(i, 3)) + ")"
  }

  const InsertDetailsPrefix: string :=
    "INSERT INTO transaction_details (transaction_id, product_id, quantity, subtotal) VALUES "

  function InsertDetailsQuery(n: nat): string {
    InsertDetailsPrefix + Join(seq(n, i requires 0 <= i => PlaceholderGroup(i)), ",")
  }

  /** The rows the database stores when it runs `InsertDetailsQuery(n)` with
      `args`: placeholder `$k` is bound to `args[k - 1]`, and the four columns of
      group i are (transaction_id, product_id, quantity, subtotal). */
  function BoundRows(args: seq<int>, n: nat): seq<DetailRow>
    requires |args| == 4 * n
  {
    seq(n, i requires 0 <= i < n =>
      DetailRow(args[PlaceholderNumber(i, 0) - 1], args[PlaceholderNumber(i, 1) - 1],
                args[PlaceholderNumber(i, 2) - 1], args[PlaceholderNumber(i, 3) - 1]))
  }

  /** The first `n` details' arguments, four per detail in the order
      (transactionID, productID, quantity, subtotal). */
  predicate BatchArgs(args: seq<int>, details: seq<TransactionDetail>, transactionId: int, n: nat)
    requires n <= |details|
  {
    && |args| == 4 * n
    && forall i :: 0 <= i < n ==>
         && args[4 * i] == transactionId && args[4 * i + 1] == details[i].productId
         && args[4 * i + 2] == details[i].quantity && args[4 * i + 3] == details[i].subtotal
  }

  lemma BatchArgsExtend(args: seq<int>, details: seq<TransactionDetail>, transactionId: int, n: nat)
    requires n < |details| && BatchArgs(args, details, transactionId, n)
    ensures BatchArgs(args + [transactionId, details[n].productId, details[n].quantity, details[n].subtotal],
                      details, transactionId, n + 1)
  {
    var next := args + [transactionId, details[n].productId, details[n].quantity, details[n].subtotal];
    forall i | 0 <= i < n + 1
      ensures && next[4 * i] == transactionId && next[4 * i + 1] == details[i].productId
              && next[4 * i + 2] == details[i].quantity && next[4 * i + 3] == details[i].subtotal
    {
      if i < n {
        assert next[4 * i] == args[4 * i] && next[4 * i + 1] == args[4 * i + 1];
        assert next[4 * i + 2] == args[4 * i + 2] && next[4 * i + 3] == args[4 * i + 3];
      }
    }
  }

  /** Binding the arguments to the placeholders stores exactly the stamped detail rows. */
  lemma BatchArgsBindRows(args: seq<int>, details: seq<TransactionDetail>, transactionId: int)
    requires BatchArgs(args, details, transactionId, |details|)
    ensures BoundRows(args, |details|) == Rows(Stamp(details, transactionId))
  {
    var bound, rows := BoundRows(args, |details|), Rows(Stamp(details, transactionId));
    forall i | 0 <= i < |details|
      ensures bound[i] == rows[i]
    {
      assert args[4 * i] == transactionId;
    }
  }

  /** The first `n` details are stamped with the transaction id, the rest are as given. */
  predicate StampedUpTo(stamped: seq<TransactionDetail>, details: seq<TransactionDetail>, transactionId: int, n: nat)
    requires n <= |details|
  {
    && |stamped| == |details|
    && (forall j :: 0 <= j < n ==> stamped[j] == details[j].(transactionId := transactionId))
    && (forall j :: n <= j < |details| ==> stamped[j] == details[j])
  }

  lemma StampStep(stamped: seq<TransactionDetail>, details: seq<TransactionDetail>, transactionId: int, n: nat)
    requires n < |details| && StampedUpTo(stamped, details, transactionId, n)
    ensures StampedUpTo(stamped[n := details[n].(transactionId := transactionId)], details, transactionId, n + 1)
  {
  }

  lemma StampDone(stamped: seq<TransactionDetail>, details: seq<TransactionDetail>, transactionId: int)
    requires StampedUpTo(stamped, details, transactionId, |details|)
    ensures stamped == Stamp(details, transactionId)
  {
  }

  /** The placeholder groups of the first `n` details. */
  predicate GroupsUpTo(valueStrings: seq<string>, n: nat) {
    |valueStrings| == n && forall j :: 0 <= j < n ==> valueStrings[j] == PlaceholderGroup(j)
  }

  lemma GroupsDone(valueStrings: seq<string>, n: nat)
    requires GroupsUpTo(valueStrings, n)
    ensures valueStrings == seq(n, i requires 0 <= i => PlaceholderGroup(i))
  {
  }

  /** Builds the batched insert: stamps every detail with the transaction id,
      writes one placeholder group per detail and four arguments per detail in
      the order (transactionID, productID, quantity, subtotal). */
  method BuildDetailBatch(details: seq<TransactionDetail>, transactionId: int)
    returns (stamped: seq<TransactionDetail>, query: string, args: seq<int>)
    ensures stamped == Stamp(details, transactionId)
    ensures query == InsertDetailsQuery(|details|)
    ensures BatchArgs(args, details, transactionId, |details|)
    ensures BoundRows(args, |details|) == Rows(stamped)
  {
    var valueStrings: seq<string> := [];
    args := [];
    stamped := details;
    var i := 0;
    while i < |details|
      invariant 0 <= i <= |details|
      invariant StampedUpTo(stamped, details, transactionId, i)
      invariant GroupsUpTo(valueStrings, i)
      invariant BatchArgs(args, details, transactionId, i)
    {
      var detail := details[i];
      StampStep(stamped, details, transactionId, i);
      stamped := stamped[i := detail.(transactionId := transactionId)];
      valueStrings := valueStrings + [PlaceholderGroup(i)];
      BatchArgsExtend(args, details, transactionId, i);
      args := args + [transactionId, detail.productId, detail.quantity, detail.subtotal];
      i := i + 1;
    }
    GroupsDone(valueStrings, |details|);
    query := InsertDetailsPrefix + Join(valueStrings, ",");
    StampDone(stamped, details, transactionId);
    BatchArgsBindRows(args, details, transactionId);
  }

  /** Every placeholder number 1..4n names exactly one (detail, column) pair. */
  lemma PlaceholdersCoverArguments(n: nat, k: nat)
    requires 1 <= k <= 4 * n
    ensures (k - 1) / 4 < n && PlaceholderNumber((k - 1) / 4, (k - 1) % 4) == k
    ensures forall i: nat, c: nat :: c < 4 && PlaceholderNumber(i, c) == k ==> i == (k - 1) / 4 && c == (k - 1) % 4
  {
  }

  // ---------------------------------------------------------------------------
  // The store
  // ---------------------------------------------------------------------------

  class Store {
    var products: map<int, Product>
    var transactions: seq<TransactionRow>
    var detailRows: seq<DetailRow>
    var nextId: int

    /** Every product is stored under its own id, and transaction ids are
        distinct and below the next id the serial column hands out. */
    ghost predicate Valid()
      reads this
    {
      && (forall id :: id in products ==> products[id].id == id)
      && (forall k :: 0 <= k < |transactions| ==> transactions[k].id < nextId)
      && (forall j, k :: 0 <= j < k < |transactions| ==> transactions[j].id != transactions[k].id)
    }

    constructor (products: map<int, Product>)
      requires forall id :: id in products ==> products[id].id == id
      ensures Valid()
      ensures this.products == products && transactions == [] && detailRows == [] && nextId == 1
    {
      this.products := products;
      transactions := [];
      detailRows := [];
      nextId := 1;
    }

    /** `CreateTransaction`: runs the checkout inside a database transaction and
        publishes its writes only when it commits. */
    method CreateTransaction(items: seq<CheckoutItem>, now: int, fault: DbFault)
      returns (r: Result<Transaction, CheckoutError>)
      requires Valid()
      modifies this
      ensures Valid()
      ensures r == CheckoutOutcome(old(products), old(nextId), items, fault)
      ensures r.Failure? ==>
        products == old(products) && transactions == old(transactions) && detailRows == old(detailRows)
      ensures nextId == old(nextId) + (if IdTaken(old(products), items, fault) then 1 else 0)
      ensures r.Success? ==>
        && products == Deduct(old(products), items)
        && transactions == old(transactions) + [TransactionRow(r.value.id, r.value.totalAmount, now, None)]
        && detailRows == old(detailRows) + Rows(r.value.details)
    {
      var work, newRows, taken;
      r, work, newRows, taken := RunCheckout(products, nextId, items, fault);
      if r.Success? {
        DeductStock(products, items);
        products := work;
        transactions := transactions + [TransactionRow(r.value.id, r.value.totalAmount, now, None)];
        detailRows := detailRows + newRows;
      }
      if taken {
        nextId := nextId + 1;
      }
    }
  }

  /** The body of `CreateTransaction` between `Begin` and `Commit`: what it
      returns, the product table it leaves in the transaction and the detail
      rows its batched insert writes. Nothing is visible outside until commit. */
  method RunCheckout(products: map<int, Product>, newId: int, items: seq<CheckoutItem>, fault: DbFault)
    returns (r: Result<Transaction, CheckoutError>, work: map<int, Product>, newRows: seq<DetailRow>, taken: bool)
    ensures r == CheckoutOutcome(products, newId, items, fault)
    ensures taken == IdTaken(products, items, fault)
    ensures r.Success? ==> work == Deduct(products, items) && newRows == Rows(r.value.details)
  {
    work, newRows, taken := products, [], false;
    if fault == BeginFails {
      return Failure(PersistenceError), work, newRows, taken;
    }
    var err, productData := ValidateCart(products, items, fault);
    if err.Some? {
      return Failure(err.value), work, newRows, taken;
    }
    var totalAmount, details := ComputeDetails(products, items, productData);
    var stockOk;
    stockOk, work := UpdateStock(products, items, fault);
    if !stockOk || fault == InsertTransactionFails {
      return Failure(PersistenceError), work, newRows, taken;
    }
    // INSERT INTO transactions ... RETURNING id
    var transactionId := newId;
    taken := true;
    var stamped := details;
    if |details| > 0 {
      var query, args;
      stamped, query, args := BuildDetailBatch(details, transactionId);
      if fault == InsertDetailsFails {
        return Failure(PersistenceError), work, newRows, taken;
      }
      newRows := BoundRows(args, |details|);
    }
    DetailsLength(products, items);
    if fault == CommitFails {
      return Failure(PersistenceError), work, newRows, taken;
    }
    r := Success(Transaction(transactionId, totalAmount, stamped));
  }

  /** Step 1 of a checkout: reads every line's product, in cart order, stopping at
      the first line that fails; `productData` holds what was read. */
  method ValidateCart(products: map<int, Product>, items: seq<CheckoutItem>, fault: DbFault)
    returns (err: Option<CheckoutError>, productData: map<int, ProductInfo>)
    ensures err == Validate(products, items, fault)
    ensures err.None? ==> forall j :: 0 <= j < |items| ==> items[j].productId in productData
    ensures err.None? ==> !(fault.LookupFails? && fault.line < |items|)
    ensures forall id :: id in productData ==> Lookup(products, id) == Some(productData[id])
  {
    productData := map[];
    var i := 0;
    while i < |items|
      invariant 0 <= i <= |items|
      invariant Validate(products, items, fault) == ValidateFrom(products, items, i, fault)
      invariant forall j :: 0 <= j < i ==> items[j].productId in productData
      invariant forall id :: id in productData ==> Lookup(products, id) == Some(productData[id])
      invariant fault.LookupFails? ==> fault.line >= i
    {
      var item := items[i];
      if fault == LookupFails(i) {
        return Some(PersistenceError), productData;
      }
      var row := Lookup(products, item.productId);
      if row.None? {
        return Some(ProductNotFound(item.productId)), productData;
      }
      if row.value.stock < item.quantity {
        return Some(InsufficientStock(row.value.name, row.value.stock, item.quantity)), productData;
      }
      productData := productData[item.productId := row.value];
      i := i + 1;
    }
    err := None;
  }

  /** Step 2 of a checkout: the subtotals, the total and the detail list, from
      the rows validation read. */
  method ComputeDetails(ghost products: map<int, Product>, items: seq<CheckoutItem>, productData: map<int, ProductInfo>)
    returns (totalAmount: int, details: seq<TransactionDetail>)
    requires forall j :: 0 <= j < |items| ==> items[j].productId in productData
    requires forall id :: id in productData ==> Lookup(products, id) == Some(productData[id])
    ensures totalAmount == Total(products, items)
    ensures details == Details(products, items)
  {
    totalAmount := 0;
    details := [];
    var i := 0;
    while i < |items|
      invariant 0 <= i <= |items|
      invariant totalAmount == Total(products, items[..i])
      invariant details == Details(products, items[..i])
    {
      var item := items[i];
      var product := productData[item.productId];
      var subtotal := product.price * item.quantity;
      totalAmount := totalAmount + subtotal;
      details := details + [TransactionDetail(0, item.productId, product.name, item.quantity, subtotal)];
      assert items[..i + 1][..i] == items[..i];
      i := i + 1;
    }
    assert items[..|items|] == items;
  }

  /** Step 3 of a checkout: one stock decrement per line, applied to the
      transaction's view of the product table. */
  method UpdateStock(products: map<int, Product>, items: seq<CheckoutItem>, fault: DbFault)
    returns (ok: bool, work: map<int, Product>)
    ensures ok <==> !(fault.StockUpdateFails? && fault.line < |items|)
    ensures ok ==> work == Deduct(products, items)
  {
    work := products;
    var i := 0;
    while i < |items|
      invariant 0 <= i <= |items|
      invariant work == Deduct(products, items[..i])
      invariant fault.StockUpdateFails? ==> fault.line >= i
    {
      if fault == StockUpdateFails(i) {
        return false, work;
      }
      var item := items[i];
      if item.productId in work {
        work := work[item.productId := work[item.productId].(stock := work[item.productId].stock - item.quantity)];
      }
      assert items[..i + 1][..i] == items[..i];
      i := i + 1;
    }
    assert items[..|items|] == items;
    ok := true;
  }

  // ---------------------------------------------------------------------------
  // Properties of the specification
  // ---------------------------------------------------------------------------

  /** Validation succeeds exactly when every line passes, and otherwise reports
      the error of the first failing line in cart order. */
  lemma {:induction false} ValidateFindsFirstFailingLine(products: map<int, Product>, items: seq<CheckoutItem>, k: nat, fault: DbFault)
    requires k <= |items|
    ensures ValidateFrom(products, items, k, fault).None? <==>
      forall j :: k <= j < |items| ==> LineError(products, items, j, fault).None?
    ensures ValidateFrom(products, items, k, fault).Some? ==>
      exists j :: k <= j < |items| && LineError(products, items, j, fault) == ValidateFrom(products, items, k, fault)
        && forall m :: k <= m < j ==> LineError(products, items, m, fault).None?
    decreases |items| - k
  {
    if k < |items| && LineError(products, items, k, fault).None? {
      ValidateFindsFirstFailingLine(products, items, k + 1, fault);
      if ValidateFrom(products, items, k, fault).Some? {
        var j :| k + 1 <= j < |items| && LineError(products, items, j, fault) == ValidateFrom(products, items, k, fault)
          && forall m :: k + 1 <= m < j ==> LineError(products, items, m, fault).None?;
        assert forall m :: k <= m < j ==> LineError(products, items, m, fault).None?;
      }
    }
  }

  lemma {:induction false} DetailsAt(products: map<int, Product>, items: seq<CheckoutItem>, k: nat)
    requires k < |items|
    ensures |Details(products, items)| == |items|
    ensures Details(products, items)[k] ==
      TransactionDetail(0, items[k].productId, Snapshot(products, items[k].productId).name, items[k].quantity, Subtotal(products, items[k]))
    decreases |items|
  {
    DetailsLength(products, items);
    if k < |items| - 1 {
      DetailsAt(products, items[..|items| - 1], k);
    }
  }

  lemma {:induction false} DetailsLength(products: map<int, Product>, items: seq<CheckoutItem>)
    ensures |Details(products, items)| == |items|
    decreases |items|
  {
    if |items| > 0 {
      DetailsLength(products, items[..|items| - 1]);
    }
  }

  lemma {:induction false} TotalIsSumOfSubtotals(products: map<int, Product>, items: seq<CheckoutItem>)
    ensures Total(products, items) == SumSubtotals(Details(products, items))
    decreases |items|
  {
    if |items| > 0 {
      var front := items[..|items| - 1];
      TotalIsSumOfSubtotals(products, front);
      var d := Details(products, items);
      assert d[..|d| - 1] == Details(products, front);
    }
  }

  lemma {:induction false} StampKeepsSubtotals(details: seq<TransactionDetail>, id: int)
    ensures SumSubtotals(Stamp(details, id)) == SumSubtotals(details)
    decreases |details|
  {
    if |details| > 0 {
      var front := details[..|details| - 1];
      StampKeepsSubtotals(front, id);
      assert Stamp(details, id)[..|details| - 1] == Stamp(front, id);
    }
  }

  /** A successful checkout returns the assigned id, one detail per cart line in
      cart order carrying that id, the product id, the name and price read during
      this checkout, the quantity and subtotal = price * quantity; the total is the
      sum of the subtotals. */
  lemma CheckoutSuccessContents(products: map<int, Product>, newId: int, items: seq<CheckoutItem>, fault: DbFault)
    requires CheckoutOutcome(products, newId, items, fault).Success?
    ensures var t := CheckoutOutcome(products, newId, items, fault).value;
      && t.id == newId
      && |t.details| == |items|
      && (forall k :: 0 <= k < |items| ==>
            && items[k].productId in products
            && t.details[k] == TransactionDetail(newId, items[k].productId, products[items[k].productId].name,
                                                 items[k].quantity, products[items[k].productId].price * items[k].quantity))
      && t.totalAmount == SumSubtotals(t.details)
  {
    var t := CheckoutOutcome(products, newId, items, fault).value;
    ValidateFindsFirstFailingLine(products, items, 0, fault);
    DetailsLength(products, items);
    forall k | 0 <= k < |items|
      ensures items[k].productId in products
      ensures t.details[k] == TransactionDetail(newId, items[k].productId, products[items[k].productId].name,
                                               items[k].quantity, products[items[k].productId].price * items[k].quantity)
    {
      assert LineError(products, items, k, fault).None?;
      DetailsAt(products, items, k);
    }
    TotalIsSumOfSubtotals(products, items);
    StampKeepsSubtotals(Details(products, items), newId);
  }

  /** A checkout succeeds exactly when no statement it executes fails and every
      line names a live product whose stock covers the line's quantity. */
  lemma CheckoutSucceedsIff(products: map<int, Product>, newId: int, items: seq<CheckoutItem>, fault: DbFault)
    ensures CheckoutOutcome(products, newId, items, fault).Success? <==>
      && !FaultHits(fault, |items|)
      && forall k :: 0 <= k < |items| ==>
           Live(products, items[k].productId) && products[items[k].productId].stock >= items[k].quantity
  {
    ValidateFindsFirstFailingLine(products, items, 0, fault);
    if !FaultHits(fault, |items|) {
      forall k | 0 <= k < |items|
        ensures LineError(products, items, k, fault).None? <==>
          Live(products, items[k].productId) && products[items[k].productId].stock >= items[k].quantity
      {
      }
    }
  }

  /** A line naming a missing or soft-deleted product fails the checkout with
      ProductNotFound(id) when every earlier line passed. */
  lemma NotFoundLineFails(products: map<int, Product>, newId: int, items: seq<CheckoutItem>, k: nat)
    requires k < |items| && !Live(products, items[k].productId)
    requires forall j :: 0 <= j < k ==> LineError(products, items, j, NoFault).None?
    ensures CheckoutOutcome(products, newId, items, NoFault) == Failure(ProductNotFound(items[k].productId))
    ensures ErrorMessage(CheckoutOutcome(products, newId, items, NoFault).error)
         == "product id " + FormatInt(items[k].productId) + " not found"
  {
    ValidateUpTo(products, items, k, NoFault);
  }

  /** A line whose stock is below its quantity fails the checkout with the
      available and requested counts when every earlier line passed. */
  lemma InsufficientLineFails(products: map<int, Product>, newId: int, items: seq<CheckoutItem>, k: nat)
    requires k < |items| && Live(products, items[k].productId)
    requires products[items[k].productId].stock < items[k].quantity
    requires forall j :: 0 <= j < k ==> LineError(products, items, j, NoFault).None?
    ensures CheckoutOutcome(products, newId, items, NoFault) ==
      Failure(InsufficientStock(products[items[k].productId].name, products[items[k].productId].stock, items[k].quantity))
    ensures ErrorMessage(CheckoutOutcome(products, newId, items, NoFault).error)
         == "insufficient stock for product '" + products[items[k].productId].name + "' (available: "
            + FormatInt(products[items[k].productId].stock) + ", requested: " + FormatInt(items[k].quantity) + ")"
  {
    ValidateUpTo(products, items, k, NoFault);
  }

  lemma {:induction false} ValidateUpTo(products: map<int, Product>, items: seq<CheckoutItem>, k: nat, fault: DbFault)
    requires k <= |items|
    requires forall j :: 0 <= j < k ==> LineError(products, items, j, fault).None?
    ensures Validate(products, items, fault) == ValidateFrom(products, items, k, fault)
    decreases k
  {
    if k > 0 {
      ValidateUpTo(products, items, k - 1, fault);
    }
  }

  /** The stock pass: every product's stock falls by exactly the total quantity the
      cart requests of it; nothing else about any product changes. */
  lemma {:induction false} DeductStock(products: map<int, Product>, items: seq<CheckoutItem>)
    ensures Deduct(products, items).Keys == products.Keys
    ensures forall id :: id in products ==>
      Deduct(products, items)[id] == products[id].(stock := products[id].stock - QtyFor(items, id))
    decreases |items|
  {
    if |items| > 0 {
      DeductStock(products, items[..|items| - 1]);
    }
  }

  predicate DistinctIds(items: seq<CheckoutItem>) {
    forall j, k :: 0 <= j < k < |items| ==> items[j].productId != items[k].productId
  }

  lemma {:induction false} QtyForDistinct(items: seq<CheckoutItem>, k: nat)
    requires DistinctIds(items) && k < |items|
    ensures QtyFor(items, items[k].productId) == items[k].quantity
    decreases |items|
  {
    var front := items[..|items| - 1];
    if k < |items| - 1 {
      QtyForDistinct(front, k);
    } else {
      QtyForAbsent(front, items[k].productId);
    }
  }

  lemma {:induction false} QtyForAbsent(items: seq<CheckoutItem>, id: int)
    requires forall j :: 0 <= j < |items| ==> items[j].productId != id
    ensures QtyFor(items, id) == 0
    decreases |items|
  {
    if |items| > 0 {
      QtyForAbsent(items[..|items| - 1], id);
    }
  }

  /** For a validated cart with distinct product ids no stock ends up negative,
      and products the cart does not name are untouched. */
  lemma DistinctCartKeepsStockNonNegative(products: map<int, Product>, items: seq<CheckoutItem>)
    requires Validate(products, items, NoFault).None?
    requires DistinctIds(items)
    ensures forall k :: 0 <= k < |items| ==>
      items[k].productId in products && Deduct(products, items)[items[k].productId].stock >= 0
    ensures forall id :: id in products && (forall k :: 0 <= k < |items| ==> items[k].productId != id) ==>
      Deduct(products, items)[id] == products[id]
  {
    ValidateFindsFirstFailingLine(products, items, 0, NoFault);
    DeductStock(products, items);
    forall k | 0 <= k < |items|
      ensures items[k].productId in products && Deduct(products, items)[items[k].productId].stock >= 0
    {
      assert LineError(products, items, k, NoFault).None?;
      QtyForDistinct(items, k);
    }
    forall id | id in products && (forall k :: 0 <= k < |items| ==> items[k].productId != id)
      ensures Deduct(products, items)[id] == products[id]
    {
      QtyForAbsent(items, id);
    }
  }

  /** A repeated product id is checked line by line against the stock read before
      any decrement, so such a cart can pass validation and oversell. */
  lemma DuplicateLinesMayOversell()
    ensures var products := map[1 := Product(1, "Kopi", 1000, 1, 1, None)];
      var items := [CheckoutItem(1, 1), CheckoutItem(1, 1)];
      && CheckoutOutcome(products, 1, items, NoFault).Success?
      && Deduct(products, items)[1].stock == -1
  {
    var products := map[1 := Product(1, "Kopi", 1000, 1, 1, None)];
    var items := [CheckoutItem(1, 1), CheckoutItem(1, 1)];
    assert LineError(products, items, 0, NoFault).None?;
    assert LineError(products, items, 1, NoFault).None?;
    assert items[..1] == [CheckoutItem(1, 1)];
    assert items[..1][..0] == [];
  }

  /** An empty cart succeeds with total 0 and no details unless the begin, the
      transaction insert or the commit fails; the detail insert is never issued. */
  lemma EmptyCartSucceeds(products: map<int, Product>, newId: int, fault: DbFault)
    requires fault !in {BeginFails, InsertTransactionFails, CommitFails}
    ensures CheckoutOutcome(products, newId, [], fault) == Success(Transaction(newId, 0, []))
  {
  }

  /** Product A (price 1000, stock 10) and B (price 2000, stock 5): the cart
      [A x2, B x1] costs 4000, leaves stocks 8 and 4, with subtotals 2000 and 2000. */
  lemma TwoProductCheckout()
    ensures var products := map[1 := Product(1, "A", 1000, 10, 1, None), 2 := Product(2, "B", 2000, 5, 1, None)];
      var items := [CheckoutItem(1, 2), CheckoutItem(2, 1)];
      var r := CheckoutOutcome(products, 7, items, NoFault);
      && r == Success(Transaction(7, 4000, [TransactionDetail(7, 1, "A", 2, 2000), TransactionDetail(7, 2, "B", 1, 2000)]))
      && Deduct(products, items)[1].stock == 8 && Deduct(products, items)[2].stock == 4
  {
    var products := map[1 := Product(1, "A", 1000, 10, 1, None), 2 := Product(2, "B", 2000, 5, 1, None)];
    var items := [CheckoutItem(1, 2), CheckoutItem(2, 1)];
    assert LineError(products, items, 0, NoFault).None?;
    assert LineError(products, items, 1, NoFault).None?;
    assert items[..1] == [CheckoutItem(1, 2)];
    assert items[..1][..0] == [];
    var details := [TransactionDetail(0, 1, "A", 2, 2000), TransactionDetail(0, 2, "B", 1, 2000)];
    assert Details(products, items) == details;
    assert Total(products, items) == 4000;
    assert Stamp(details, 7) == [TransactionDetail(7, 1, "A", 2, 2000), TransactionDetail(7, 2, "B", 1, 2000)];
  }
}
