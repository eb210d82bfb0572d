/**
 * The order service: the placement workflow (reserve stock, save the order as
 * CREATED, attempt payment, save the final status) and the detail read with
 * its fallback. The product and payment services are function parameters
 * that give the outcome of each remote call.
 */
module OrderService {
  import opened Wrappers
  import opened OrderModel
  import opened OrderRepository
  import Decimal

  /** The status the payment attempt leaves the order in; a thrown payment error is not re-raised. */
  function StatusAfterPayment(outcome: PaymentOutcome): (status: string)
    ensures status == PLACED <==> outcome.Paid?
    ensures status == PAYMENT_FAILED <==> outcome.PaymentThrew?
    ensures IsFinalStatus(status)
  {
    match outcome
    case Paid(_) => PLACED
    case PaymentThrew(_) => PAYMENT_FAILED
  }

  /**
   * The payment request for a saved order: its id, the requested mode and
   * total, and as reference number the decimal text of the product id.
   */
  function PaymentRequestFor(orderId: int, orderRequest: OrderRequest): (p: PaymentRequest)
    ensures p.orderId == orderId
    ensures p.paymentMode == orderRequest.paymentMode && p.amount == orderRequest.totalAmount
    ensures p.referenceNumber == Decimal.ToDecimalString(orderRequest.productId)
    ensures Decimal.ParseDecimal(p.referenceNumber) == Some(orderRequest.productId)
  {
    Decimal.DecimalRoundTrip(orderRequest.productId);
    PaymentRequest(orderId, orderRequest.paymentMode, orderRequest.totalAmount,
                   Decimal.ToDecimalString(orderRequest.productId))
  }

  /**
   * The reference number identifies the product, not the order: two payment
   * requests carry the same reference number exactly when their products agree,
   * whatever their order ids.
   */
  lemma ReferenceNumberIdentifiesProduct(id1: int, request1: OrderRequest, id2: int, request2: OrderRequest)
    ensures PaymentRequestFor(id1, request1).referenceNumber == PaymentRequestFor(id2, request2).referenceNumber
            <==> request1.productId == request2.productId
  {
  }

  /** The exception for an unknown order id: code NOT_FOUND, and the id readable at the end of the message. */
  function NotFoundException(orderId: int): (e: Exception)
    ensures e.OrderServiceCustomException? && e.errorCode == NOT_FOUND
    ensures e.message == NOT_FOUND_MESSAGE + Decimal.ToDecimalString(orderId)
    ensures Decimal.ParseDecimal(e.message[|NOT_FOUND_MESSAGE|..]) == Some(orderId)
  {
    var message := NOT_FOUND_MESSAGE + Decimal.ToDecimalString(orderId);
    Decimal.DecimalRoundTrip(orderId);
    assert message[|NOT_FOUND_MESSAGE|..] == Decimal.ToDecimalString(orderId);
    OrderServiceCustomException(message, NOT_FOUND)
  }

  /**
   * The detail read: the stored order, then the product call by the order's
   * product id, then the payment call by the order's id. A lookup's outcome is
   * either the exception its call threw or the response body, which may be
   * null. Both calls are made before either body is read, so an exception from
   * either call comes before a null body; the product body is read first. On
   * success the response copies the order's id, status, amount and date, the
   * product's name and id, and the payment's id, status, date and mode. The
   * store is a value here, so the read cannot change it.
   */
  function GetOrderDetails(
    orders: map<int, Order>,
    orderId: int,
    getProductById: int -> Result<Option<Product>, ClientError>,
    getPaymentByOrderId: int -> Result<Option<PaymentResponse>, ClientError>): (r: Result<OrderResponse, Exception>)
    ensures orderId !in orders <==> r == Failure(NotFoundException(orderId))
    ensures orderId in orders ==>
      var order := orders[orderId];
      var product := getProductById(order.productId);
      var payment := getPaymentByOrderId(order.id);
      && (product.Failure? ==> r == Failure(ClientException(product.error)))
      && (product.Success? && payment.Failure? ==> r == Failure(ClientException(payment.error)))
      && (product.Success? && payment.Success? && (product.value.None? || payment.value.None?) ==>
            r == Failure(NullPointerException))
      && (product.Success? && payment.Success? && product.value.Some? && payment.value.Some? ==>
            && r.Success?
            && r.value.orderId == order.id
            && r.value.orderStatus == Some(order.orderStatus)
            && r.value.amount == order.amount
            && r.value.orderDate == Some(order.orderDate)
            && r.value.productDetails == Some(ProductDetails(product.value.value.productName,
                                                             product.value.value.productId))
            && r.value.paymentDetails == Some(PaymentDetails(payment.value.value.paymentId,
                                                             payment.value.value.status,
                                                             payment.value.value.paymentDate,
                                                             payment.value.value.paymentMode)))
  {
    if orderId !in orders then
      Failure(NotFoundException(orderId))
    else
      var order := orders[orderId];
      match getProductById(order.productId)
      case Failure(e) => Failure(ClientException(e))
      case Success(productBody) =>
        match getPaymentByOrderId(order.id)
        case Failure(e) => Failure(ClientException(e))
        case Success(paymentBody) =>
          match productBody
          case None => Failure(NullPointerException)
          case Some(product) =>
            match paymentBody
            case None => Failure(NullPointerException)
            case Some(payment) =>
              var productDetails := ProductDetails(product.productName, product.productId);
              var paymentDetails := PaymentDetails(payment.paymentId, payment.status, payment.paymentDate, payment.paymentMode);
              Success(OrderResponse(order.id, Some(order.orderStatus), order.amount, Some(order.orderDate),
                                    Some(productDetails), Some(paymentDetails)))
  }

  /** The fallback: a response built with the no-argument constructor, whatever the id and the cause. */
  function GetNoPaymentResponse(orderId: int, ex: Exception): (r: OrderResponse)
    ensures r.orderId == 0 && r.amount == 0
    ensures r.orderStatus.None? && r.orderDate.None?
    ensures r.productDetails.None? && r.paymentDetails.None?
  {
    OrderResponse(0, None, 0, None, None, None)
  }

  /**
   * The fallback never passes for a real detail view, and an unknown id never
   * yields a view at all: NOT_FOUND and the fallback cannot be confused.
   */
  lemma FallbackIsDistinct(
    orders: map<int, Order>,
    orderId: int,
    getProductById: int -> Result<Option<Product>, ClientError>,
    getPaymentByOrderId: int -> Result<Option<PaymentResponse>, ClientError>,
    ex: Exception)
    ensures var r := GetOrderDetails(orders, orderId, getProductById, getPaymentByOrderId);
      && (r.Success? ==> r.value != GetNoPaymentResponse(orderId, ex))
      && (orderId !in orders ==> r.Failure? && r.error.errorCode == NOT_FOUND)
  {
  }

  /**
   * In a store whose records sit under their own ids, a successful read
   * answers for the id asked about.
   */
  lemma DetailsAnswerForAskedId(
    orders: map<int, Order>,
    orderId: int,
    getProductById: int -> Result<Option<Product>, ClientError>,
    getPaymentByOrderId: int -> Result<Option<PaymentResponse>, ClientError>)
    requires forall id :: id in orders ==> orders[id].id == id
    ensures var r := GetOrderDetails(orders, orderId, getProductById, getPaymentByOrderId);
      r.Success? ==> orderId in orders && r.value.orderId == orderId
  {
  }

  class OrderServiceImpl {
    const orderRepository: OrderStore

    constructor (orderRepository: OrderStore)
      ensures this.orderRepository == orderRepository
    {
      this.orderRepository := orderRepository;
    }

    /**
     * Places an order. The exception of a failed stock reservation propagates:
     * nothing is saved, no payment request is sent and the store is as it was.
     * Otherwise the trace grows by exactly three steps, in this order. The
     * first save stores a new record under a fresh id, holding the request's
     * product id, quantity and amount, the given date, no payment mode and
     * status CREATED. Then one payment request, built from that id, is sent. The second save replaces the record
     * with one that differs only in its status: PLACED if the payment call
     * returned and PAYMENT_FAILED if it threw. The id is returned normally in
     * both cases, and no other record changes.
     */
    method PlaceOrder(
      orderRequest: OrderRequest,
      now: Instant,
      reduceQuantity: (int, int) -> Reservation,
      doPayment: PaymentRequest -> PaymentOutcome)
      returns (r: Result<int, Exception>)
      requires orderRepository.Valid()
      modifies orderRepository
      ensures orderRepository.Valid()
      ensures reduceQuantity(orderRequest.productId, orderRequest.quantity).ReservationFailed? ==>
        && r == Failure(ClientException(reduceQuantity(orderRequest.productId, orderRequest.quantity).error))
        && orderRepository.trace == old(orderRepository.trace)
        && orderRepository.orders == old(orderRepository.orders)
        && orderRepository.nextId == old(orderRepository.nextId)
      ensures reduceQuantity(orderRequest.productId, orderRequest.quantity).Reserved? ==>
        && r.Success?
        && (var id := r.value;
            var created := Order(id, orderRequest.productId, orderRequest.quantity,
                                 orderRequest.totalAmount, None, now, CREATED);
            var paymentRequest := PaymentRequestFor(id, orderRequest);
            var final := created.(orderStatus := StatusAfterPayment(doPayment(paymentRequest)));
            && id !in old(orderRepository.orders)
            && id == old(orderRepository.nextId)
            && orderRepository.nextId == id + 1
            && orderRepository.trace == old(orderRepository.trace)
                 + [Saved(created), PaymentSent(paymentRequest), Saved(final)]
            && orderRepository.orders == old(orderRepository.orders)[id := final]
            && IsFinalStatus(orderRepository.orders[id].orderStatus))
    {
      var reservation := reduceQuantity(orderRequest.productId, orderRequest.quantity);
      if reservation.ReservationFailed? {
        return Failure(ClientException(reservation.error));
      }

      var order := Order(0, orderRequest.productId, orderRequest.quantity, orderRequest.totalAmount,
                         None, now, CREATED);
      order := orderRepository.Create(order);

      var paymentRequest := PaymentRequestFor(order.id, orderRequest);
      var orderStatus: string;
      orderRepository.trace := orderRepository.trace + [PaymentSent(paymentRequest)];
      match doPayment(paymentRequest) {
        case Paid(_) =>
          orderStatus := PLACED;
        case PaymentThrew(_) =>
          orderStatus := PAYMENT_FAILED;
      }

      order := order.(orderStatus := orderStatus);
      orderRepository.Update(order);
      r := Success(order.id);
    }
  }
}
