# kasir-api / tspay-subhub core, modelled in Dafny

This project models the sequential core of a point-of-sale backend (kasir-api) and of its
payment-webhook relay (tspay-subhub). It proves properties of that core.

- **Checkout engine** (`TransactionRepository`, file `transaction_repository.dfy`). A `Store` class holds
  the product table, the `transactions` and `transaction_details` tables and the id counter.
  - `CreateTransaction` runs four passes: validate every cart line, compute subtotals and the total,
    decrement stock, and write the transaction with a batched detail insert.
  - Each pass is a method with loop invariants, proved against specification functions
    (`CheckoutOutcome`, `Deduct`, `Rows`). The lemmas about those functions state what a checkout promises.
  - Which database statement fails, if any, is the parameter `fault`. On every failure the three tables
    are left as they were, as the deferred rollback guarantees. The id counter is a sequence, which a
    rollback does not reset. A checkout that fails after its transaction row was inserted (the detail
    insert or the commit fails) still uses up an id.
- **Webhook signature verifier** (`Tspay`). It models the replay-tolerance window and the `sha256=` prefix.
  It models the choice between the deposit and the payout secret, and the signed message
  `timestamp + "." + payload`. HMAC-SHA256 and hex encoding are arbitrary functions passed in, and the
  clock is the parameter `now`.
- **Deposit callback processor** (`Incoming`). It verifies with the deposit secret, then decodes with an
  abstract JSON decoder, then schedules exactly one forward to the merchant. A scheduled forward is
  appended to a ghost `pendingForwards` sequence.
- **Connection-string rewrite** (`Database`). It adds a `timezone=Asia/Jakarta` parameter when the
  connection string has none.
- **Product handler** (`ProductHandler`):
  - the product id is read from the request path;
  - `GetProductByID` and `DeleteProduct` map each outcome to a status;
  - `UpdateProduct` runs its checks in a fixed order and merges with the "non-zero fields override" rule.
- **Sales report** (`Report`). The two SQL queries of `ReportRepository` are functions over in-memory
  tables:
  - the inclusive range;
  - transaction soft-delete exclusion;
  - `COALESCE` to 0;
  - the `INNER JOIN`s and `GROUP BY`;
  - the top product, or none when no row joins.
- **Report handler** (`ReportHandler`). Both query parameters are required, and the fixed time suffixes
  are appended to the dates.

`Common` holds `Option`/`Result`, `strings.TrimPrefix`, `strings.Join`, and Go's decimal `strconv`
parsing and `%d` formatting. `Models` holds the records.

Two properties one might expect of this system do not hold of the code, and the model follows the code:

- **Stock is not always kept non-negative.** The code checks each cart line against the stock read before
  any decrement. So a cart that names one product twice can pass validation and request more than the
  stock. Unless the `product` table carries a `CHECK (stock >= 0)` constraint, such a checkout drives the
  stock below zero. The schema is outside the modelled code; in the model a constraint violation would be
  `StockUpdateFails`. `DuplicateLinesMayOversell` gives a concrete case without such a constraint.
  Non-negativity is proved only for carts with distinct ids (`DistinctCartKeepsStockNonNegative`).
- **Verification is not "fresh and signed".** A timestamp that does not parse as an integer skips the
  window check entirely, so `|now - timestamp| <= tolerance` is not required for acceptance
  (`UnparsableTimestampSkipsWindow`).

## Model

| member | source | states |
|---|---|---|
| Common.TrimPrefix | services/tspay_service.go:52 | a leading prefix is removed exactly once; a string without it is returned unchanged |
| Common.TrimPrefixOnce | services/tspay_service.go:52 | trimming `sha256=` from `sha256=` + rest gives rest, even when rest starts with `sha256=` again |
| Common.ParseInt64 | services/tspay_service.go:40 | a successful parse of `strconv.ParseInt(s, 10, 64)` / `strconv.Atoi` lies in the int64 range, and the text starts with a digit or a sign |
| Common.ParseFormatRoundTrip | services/tspay_service.go:40 | every int64 printed in decimal parses back to itself |
| Common.ParseRejectsLeadingNonDigit | handlers/product_handler.go:44 | text whose first character is neither a digit nor a sign never parses |
| TransactionRepository.CheckoutOutcome | repositories/transaction_repository.go:19-133 | defines the result of a checkout: a begin failure is a persistence error; any other non-persistence error is the validation error; a success carries the new id and means the id was drawn; a drawn id with a failure means the detail insert or the commit failed |
| TransactionRepository.Store.CreateTransaction | repositories/transaction_repository.go:19-133 | returns `CheckoutOutcome` of the old state; on failure none of the three tables changes; on success the stock is deducted and one transaction row and the stamped detail rows are appended; the id counter advances exactly when the transaction insert was reached and completed, on success and on a later failure alike; the store invariant is kept |
| TransactionRepository.RunCheckout | repositories/transaction_repository.go:20-114 | the statements between begin and commit, with Go's early returns, produce exactly `CheckoutOutcome`; on success the transaction's product table is `Deduct` and the rows written are those of the returned details; it reports whether an id was drawn |
| TransactionRepository.ValidateCart | repositories/transaction_repository.go:37-59 | the validation loop reports the error of the first failing line (`Validate`), and what it records in `productData` is the live row of each product it read |
| TransactionRepository.ComputeDetails | repositories/transaction_repository.go:62-73 | the accumulation loop yields the total and the detail list of the specification, from the rows read during validation |
| TransactionRepository.UpdateStock | repositories/transaction_repository.go:76-81 | the stock loop fails exactly when one of its updates fails, and otherwise leaves the table `Deduct` gives |
| TransactionRepository.BuildDetailBatch | repositories/transaction_repository.go:92-104 | every detail is stamped with the transaction id; the query has one `($4i+1, $4i+2, $4i+3, $4i+4)` group per detail; there are four arguments per detail, in the order (transactionID, productID, quantity, subtotal); binding them yields exactly the detail rows without the product name |
| TransactionRepository.BatchArgsBindRows | repositories/transaction_repository.go:96-106 | four arguments per detail in the order (transactionID, productID, quantity, subtotal), bound to the numbered placeholders, store exactly the stamped detail rows |
| TransactionRepository.PlaceholdersCoverArguments | repositories/transaction_repository.go:98-99 | each placeholder number 1..4n belongs to exactly one (detail, column) pair |
| TransactionRepository.ValidateFindsFirstFailingLine | repositories/transaction_repository.go:37-52 | validation passes iff every line passes; otherwise it reports the error of the first failing line in cart order |
| TransactionRepository.NotFoundLineFails | repositories/transaction_repository.go:41-44 | a line naming a missing or soft-deleted product, after passing lines, fails the checkout with ProductNotFound of that id, whose text is "product id N not found" |
| TransactionRepository.InsufficientLineFails | repositories/transaction_repository.go:50-52 | a line whose stock is below its quantity, after passing lines, fails with the product name, the available and the requested counts, in the text "insufficient stock for product 'NAME' (available: A, requested: R)" |
| TransactionRepository.CheckoutSucceedsIff | repositories/transaction_repository.go:20-114 | a checkout succeeds iff no executed statement fails and every line names a live product with enough stock |
| TransactionRepository.CheckoutSuccessContents | repositories/transaction_repository.go:62-120 | on success there is one detail per cart line, in cart order, with the new id, the product id, the name read now, the quantity and subtotal = price × quantity; the total is the sum of the subtotals |
| TransactionRepository.DetailsAt | repositories/transaction_repository.go:67-72 | detail k is built from cart line k and the row read for its product |
| TransactionRepository.TotalIsSumOfSubtotals | repositories/transaction_repository.go:62-66 | the accumulated total equals the sum of the detail subtotals |
| TransactionRepository.StampKeepsSubtotals | repositories/transaction_repository.go:96-97 | setting the transaction id on the details leaves their subtotals, and so their sum, unchanged |
| TransactionRepository.DeductStock | repositories/transaction_repository.go:76-81 | each product's stock falls by exactly the total quantity the cart requests of it, and nothing else about any product changes |
| TransactionRepository.DistinctCartKeepsStockNonNegative | repositories/transaction_repository.go:41-81 | for a validated cart with distinct ids, no resulting stock is negative and products outside the cart are untouched |
| TransactionRepository.DuplicateLinesMayOversell | repositories/transaction_repository.go:41-77 | stock 1 with the cart [(1,1), (1,1)] passes validation and leaves stock −1 |
| TransactionRepository.EmptyCartSucceeds | repositories/transaction_repository.go:26-92 | an empty cart succeeds with total 0 and no details, whatever happens to the detail insert, which is never issued |
| TransactionRepository.TwoProductCheckout | repositories/transaction_repository.go:62-81 | A (1000, stock 10) and B (2000, stock 5), bought as [A×2, B×1], give total 4000, subtotals 2000 and 2000, and stocks 8 and 4 |
| Tspay.NewTspayService | services/tspay_service.go:23-34 | a configured tolerance of 0 becomes 300 seconds, any other value is kept, and the two secrets are stored as configured |
| Tspay.VerifyWebhookSignature | services/tspay_service.go:37-74 | an accepted webhook has a fresh timestamp and a signature, stripped of `sha256=`, equal to the hex HMAC of `timestamp + "." + payload` under the selected secret |
| Tspay.VerifyIff | services/tspay_service.go:37-74 | verification accepts iff the timestamp is fresh and the hex HMAC of `timestamp + "." + payload` under the selected secret equals the signature stripped of `sha256=` |
| Tspay.StaleTimestampRejected | services/tspay_service.go:40-48 | a parsed timestamp more than the tolerance from now is rejected for every HMAC and hex function |
| Tspay.ToleranceBoundary | services/tspay_service.go:45-48 | a difference of exactly the tolerance, with the timestamp before or after now, passes the window check; one second more is rejected |
| Tspay.UnparsableTimestampSkipsWindow | services/tspay_service.go:40-42 | a timestamp that does not parse leaves only the signature comparison, whatever `now` is |
| Tspay.SignedMessageKeepsRawTimestamp | services/tspay_service.go:61 | the signed message keeps the raw timestamp text: different timestamp strings give different messages |
| Tspay.SecretSelection | services/tspay_service.go:55-58 | deposit verification does not depend on the payout secret, and payout verification does not depend on the deposit secret |
| Incoming.Decide | services/incoming_service.go:24-44 | defines the decision: rejected as invalid signature iff verification with the deposit secret fails; a decode failure rejects with the decoder's error; otherwise one forward of the decoded data to the merchant URL |
| Incoming.IncomingService.ProcessDepositCallback | services/incoming_service.go:24-44 | a failed verification gives the error "invalid signature" and schedules nothing; a decode failure gives "failed to unmarshal JSON: " + the decoder's error and schedules nothing; otherwise nil and exactly one forward of the decoded data to the fixed merchant URL |
| Incoming.OnlyDepositSecretUsed | services/incoming_service.go:26 | the decision never depends on the payout secret |
| Incoming.RejectedBeforeDecoding | services/incoming_service.go:26-34 | a request failing verification is rejected whatever the decoder would do |
| Database.Contains | database/database.go:41-43 | `strings.Contains`, scanning from the left; a string contains nothing longer than itself |
| Database.ContainsIff | database/database.go:41-43 | `contains` holds iff the substring occurs at some offset |
| Database.WithTimezone | database/database.go:19-25 | the result extends the input and contains `timezone=`; an input already holding `timezone=` is unchanged; otherwise `&timezone=Asia/Jakarta` is added when there is a `?`, and `?timezone=Asia/Jakarta` when there is not |
| Database.WithTimezoneIdempotent | database/database.go:19-25 | rewriting twice gives what rewriting once gives |
| Database.ExistingTimezoneKept | database/database.go:19 | a `timezone=` anywhere in the string, even after other parameters, leaves it unchanged |
| Database.Connect | database/database.go:13-25 | an empty connection string is the error "connection string is empty", before anything else; any other string is rewritten |
| ProductHandler.ParseProductId | handlers/product_handler.go:43-44 | a parsed product id lies in the int64 range |
| ProductHandler.ProductPathRoundTrip | handlers/product_handler.go:43-44 | `/api/product/` + decimal id reads back as that id |
| ProductHandler.ForeignPathRejected | handlers/product_handler.go:43-51 | a path starting with `/` but not with `/api/product/` is an invalid id |
| ProductHandler.GetProductByID | handlers/product_handler.go:42-75 | a bad id gives 400 "Invalid Product ID"; no rows gives 404; any other error gives 500 with "Failed to fetch product: " and its message; success gives 200 with the product; data only on 200 |
| ProductHandler.Merge | handlers/product_handler.go:143-154 | each of name, price, stock and category comes from the request exactly when it is non-empty or non-zero there; id and deletion marker are the stored ones |
| ProductHandler.MergeCannotClear | handlers/product_handler.go:143-154 | an update never leaves a zero price, stock or category, or an empty name, that was not already there |
| ProductHandler.MergeIdempotent | handlers/product_handler.go:143-154 | applying the same request twice gives what applying it once gives |
| ProductHandler.MergeIgnoresRequestId | handlers/product_handler.go:127-156 | the request's id and deletion marker never affect the merged product |
| ProductHandler.UpdateProduct | handlers/product_handler.go:106-170 | checks run in the order bad id (400), bad body (400), no rows (404), lookup error (500), with nothing written in any of them; otherwise the merged product is written and the update's outcome gives 500 "Failed to update product: " or 200 "Product updated successfully" |
| ProductHandler.DeleteProduct | handlers/product_handler.go:173-197 | a bad id gives 400 "Invalid Product ID", a failed delete gives 500 with the prefixed message, and success gives 200 without data |
| Report.Revenue | repositories/report_repository.go:31-40 | `COALESCE(SUM(total_amount), 0)` over the included rows: 0 when none is included, never negative when no amount is |
| Report.Count | repositories/report_repository.go:31-40 | `COUNT(*)` of the included rows: at most the table size, and 0 exactly when none is included |
| Report.TopSelling | repositories/report_repository.go:46-70 | the top-product query; absent exactly when no detail of an included transaction joins a product row |
| Report.SalesReportByDateRange | repositories/report_repository.go:27-72 | fails iff a bound is not a timestamp or one of the two queries fails (`fault`), with the bound's text or the query's error; otherwise revenue, count and top product over the inclusive range, with no top product exactly when no row joins (`sql.ErrNoRows` is no failure) |
| Report.DailySalesReport | repositories/report_repository.go:18-24 | the revenue, count and top product over [today 00:00:00, today 23:59:59], failing iff a bound does not cast or a query fails |
| Report.SplitTransactions | repositories/report_repository.go:31-58 | the totals and the joined rows over a table split in two are those of the two parts |
| Report.BestOf | repositories/report_repository.go:55-57 | the chosen group is one of the candidates and no candidate has a larger summed quantity |
| Report.SoldRowsHaveProducts | repositories/report_repository.go:52 | every joined row names a product that has a row in `product` |
| Report.TopSellingIsMaximal | repositories/report_repository.go:46-70 | no top product iff no detail of an included transaction joins a product; otherwise its quantity is that of a group with the largest summed quantity, and its name is the product's current name |
| Report.RevenueAppend | repositories/report_repository.go:31-40 | one more transaction adds its amount to the revenue and one to the count exactly when it lies in the inclusive range and is not deleted |
| Report.DeletedTransactionLeavesReport | repositories/report_repository.go:31-58 | a soft-deleted transaction row inserted at any position changes neither the totals nor the top product |
| Report.DeletedProductStillReported | repositories/report_repository.go:52-54 | soft-deleting a product does not change the report |
| Report.EmptyRangeReport | repositories/report_repository.go:31-65 | a range with no live transaction gives revenue 0, count 0 and no top product, or the query's error when one fails |
| ReportHandler.DateRangeBounds | handlers/report_handler.go:57-70 | the bounds are absent iff either date is empty; otherwise they are start + " 00:00:00" and end + " 23:59:59", with no format check |
| ReportHandler.GetSalesReportByDateRange | handlers/report_handler.go:56-86 | a missing date gives 400 with the required-parameters message; otherwise a service error gives 500 "Failed to fetch sales report: " + error and success gives 200 with the report |
| ReportHandler.GetDailySalesReport | handlers/report_handler.go:27-42 | a service error gives 500 "Failed to fetch daily sales report: " + error; success gives 200 with the report |
| ReportHandler.MissingDateIgnoresService | handlers/report_handler.go:60-66 | with a missing date the response is 400 and the same whatever the service would answer |
| ReportHandler.RangeRequestOverDatabase | handlers/report_handler.go:68-85 | over a database, two dates give 200 with the report over [start 00:00:00, end 23:59:59], both bounds included, or 500 "Failed to fetch sales report: " + the error's text when a bound does not cast or a query fails |
| ReportHandler.SameDayRangeIsDailyReport | repositories/report_repository.go:18-24 | the daily report is the range report over [today 00:00:00, today 23:59:59] |

## Left out

- The SQL engine, row locking and concurrent checkouts are not modelled. One sequential store is modelled, and atomicity is "on error the store is unchanged". The claim that two concurrent checkouts of the last unit never oversell is not addressed.
- The id sequence is assumed not to advance when `INSERT INTO transactions` itself fails (`InsertTransactionFails`); whether PostgreSQL has already drawn the value then depends on where the statement fails.
- Database failures are not modelled in detail. In the checkout a failing statement is named by `DbFault`, and its error text is one `PersistenceError`. In the report a failing query is named by `QueryFault`, and its error text is a parameter of that fault.
- The driver's own error texts are not modelled.
- The `created_at`/`deleted_at` returned by the transaction insert, and their formatting in the Asia/Jakarta zone, are not modelled. A new transaction row gets the instant `now` passed to `CreateTransaction`.
- Report timestamps are abstract instants. The cast of a bound such as `2024-01-31 23:59:59` to a timestamp is the parameter `cast`, and a bound that does not cast fails the report with an error. Calendar arithmetic and time zones are not modelled.
- `time.Now` is the parameter `now` (Unix seconds) in `VerifyWebhookSignature`, and today's date is the parameter `today` in `GetDailySalesReport`.
- The `viper` configuration reads are parameters of `NewTspayService`.
- HMAC-SHA256 and hex encoding are uninterpreted functions. So nothing about collision resistance, and nothing about the constant-time behaviour of `hmac.Equal`, is stated.
- Tspay.VerifyWebhookSignature: the window check uses an exact integer absolute value. It does not model Go's `float64` conversion, which rounds only for differences above 2^53 seconds, nor int64 wrap-around of `currentTime - webhookTime` at the extremes.
- Prices, stock and subtotals are unbounded integers. Go's `int` overflow in `price * quantity` and in the total is not modelled.
- `CallMerchant`, an HTTP POST, and the goroutine that runs it are not modelled. A forward is only recorded as scheduled.
- JSON decoding (`json.Unmarshal`, `json.NewDecoder`) is an abstract function or an `Option` body. The `float64` and `interface{}` fields of the deposit callback are carried as bit patterns and raw text, unread.
- `sql.Open` and `Ping` in `Connect` are not modelled.
- HTTP plumbing is not modelled: `WriteJSON`, headers, routing and main.go. The handler results are the status code and the JSON envelope.
- `GetProducts` and `CreateProduct` only delegate to the service and are not modelled.
- handlers/transaction_handler.go is not modelled. It wraps the checkout with decode/encode and gives status 500 for every checkout error.
- handlers/incoming_handler.go is not part of this model. It forwards whatever arrives, without checking the verification result or decode errors.
- The logger (utils/logger_util.go) and the `log.Printf` calls are not modelled.
- The pass-through services (services/product_service.go, services/report_service.go) are identities here. `ProductService.GetByID`, `Update` and `Delete` are function parameters.
- `Product`, `Transaction`, `TransactionDetail` and `CheckoutItem` are mirrored from the SQL columns and struct literals in repositories/transaction_repository.go and handlers/product_handler.go.
- The source files come from different iterations and their import paths and signatures differ. Each file is modelled on its own terms.
- Ties between groups with the same summed quantity are left unresolved, as `ORDER BY ... LIMIT 1` leaves them. The model picks one group, and `TopSellingIsMaximal` promises only a maximal one.
