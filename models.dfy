/** The records the core passes around: rows of the `product`, `transactions`
    and `transaction_details` tables, the checkout request and result, the
    sales report, the payment provider's deposit callback and the JSON response
    envelope every handler writes. Timestamps are abstract instants (`int`). */
module Models {
  import opened Common

  /** A row of `product`; `deletedAt` is the soft-delete marker. */
  datatype Product = Product(
    id: int,
    name: string,
    price: int,
    stock: int,
    categoryId: int,
    deletedAt: Option<int>)

  /** One cart line of a checkout request. */
  datatype CheckoutItem = CheckoutItem(productId: int, quantity: int)

  /** A line of a completed checkout as returned to the caller; `productName`
      is the name read during the checkout. */
  datatype TransactionDetail = TransactionDetail(
    transactionId: int,
    productId: int,
    productName: string,
    quantity: int,
    subtotal: int)

  /** The result of a successful checkout. */
  datatype Transaction = Transaction(id: int, totalAmount: int, details: seq<TransactionDetail>)

  /** A row of `transactions`. */
  datatype TransactionRow = TransactionRow(id: int, totalAmount: int, createdAt: int, deletedAt: Option<int>)

  /** A row of `transaction_details`: the product name is not a column. */
  datatype DetailRow = DetailRow(transactionId: int, productId: int, quantity: int, subtotal: int)

  datatype TopProduct = TopProduct(nama: string, qtyTerjual: int)

  datatype SalesReport = SalesReport(totalRevenue: int, totalTransaksi: int, produkTerlaris: Option<TopProduct>)

  /** The bit pattern of a Go float64, carried through unread. */
  datatype Float64 = Float64(bits: bv64)

  /** A JSON value decoded into a Go `interface{}`, kept as its raw text. */
  datatype JsonValue = JsonValue(raw: string)

  /** The payment provider's deposit event; the core only passes it on. */
  datatype DepositCallback = DepositCallback(
    eventType: string,
    transactionId: string,
    reference: string,
    amount: Float64,
    fee: Float64,
    netAmount: Float64,
    currency: string,
    chain: JsonValue,
    status: string,
    walletAddress: JsonValue,
    kind: string,
    paymentMethod: string)

  /** The JSON envelope `{status, message, data}` and the HTTP status code it is sent with. */
  datatype Response<T> = Response(code: int, status: string, message: string, data: Option<T>)

  function Failed<T>(code: int, message: string): Response<T> {
    Response(code, "failed", message, None)
  }

  function Succeeded<T>(message: string, data: T): Response<T> {
    Response(200, "success", message, Some(data))
  }
}
