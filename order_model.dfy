/**
 * The records the order service reads and writes: the stored order, the
 * placement request, the payment request it sends, the records returned by
 * the product and payment lookups, the detail response, and the exceptions
 * that can leave a workflow.
 */
module OrderModel {
  import opened Wrappers

  /** A point in time (`java.time.Instant`), as an opaque number. */
  type Instant = int

  /** The payment-mode enumeration, by the name of its constant. */
  datatype PaymentMode = PaymentMode(name: string)

  /** The status strings the placement workflow writes. */
  const CREATED: string := "CREATED"
  const PLACED: string := "PLACED"
  const PAYMENT_FAILED: string := "PAYMENT_FAILED"

  /** The error code of the exception thrown for an unknown order id. */
  const NOT_FOUND: string := "NOT_FOUND"
  const NOT_FOUND_MESSAGE: string := "Order not found for the order Id:"

  /** A stored order record; `id` is 0 until the store assigns one. */
  datatype Order = Order(
    id: int,
    productId: int,
    quantity: int,
    amount: int,
    paymentMode: Option<PaymentMode>,
    orderDate: Instant,
    orderStatus: string)

  /** The body of a placement request. */
  datatype OrderRequest = OrderRequest(
    productId: int,
    totalAmount: int,
    quantity: int,
    paymentMode: PaymentMode)

  /** What the order service sends to the payment service. */
  datatype PaymentRequest = PaymentRequest(
    orderId: int,
    paymentMode: PaymentMode,
    amount: int,
    referenceNumber: string)

  /** The product record returned by the product lookup (only the fields read here). */
  datatype Product = Product(productId: int, productName: string)

  /** The payment record returned by the payment lookup (only the fields read here). */
  datatype PaymentResponse = PaymentResponse(
    paymentId: int,
    status: string,
    paymentMode: PaymentMode,
    paymentDate: Instant)

  datatype ProductDetails = ProductDetails(productName: string, productId: int)

  datatype PaymentDetails = PaymentDetails(
    paymentId: int,
    paymentStatus: string,
    paymentDate: Instant,
    paymentMode: PaymentMode)

  /**
   * The detail view. Reference-typed fields are `Option`s: a response built
   * with the no-argument constructor holds null in each of them.
   */
  datatype OrderResponse = OrderResponse(
    orderId: int,
    orderStatus: Option<string>,
    amount: int,
    orderDate: Option<Instant>,
    productDetails: Option<ProductDetails>,
    paymentDetails: Option<PaymentDetails>)

  /** Whatever a remote client throws (an HTTP error status, a refused call). */
  datatype ClientError = ClientError(detail: string)

  /** The exceptions that can leave the order service. */
  datatype Exception =
    | OrderServiceCustomException(message: string, errorCode: string)
    | ClientException(cause: ClientError)
    | NullPointerException

  /** The outcome of the stock-reservation call. */
  datatype Reservation = Reserved | ReservationFailed(error: ClientError)

  /** The outcome of the payment call: the payment id, or the exception it threw. */
  datatype PaymentOutcome = Paid(paymentId: int) | PaymentThrew(error: ClientError)

  /**
   * A step of the placement workflow that others can observe: a record
   * written to the order store, or a payment request sent.
   */
  datatype Event = Saved(order: Order) | PaymentSent(request: PaymentRequest)

  /** The statuses an order can be left in once placement has returned. */
  predicate IsFinalStatus(status: string) {
    status == PLACED || status == PAYMENT_FAILED
  }
}
