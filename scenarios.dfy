/**
 * Clients of the order service: placing an order and then reading it back,
 * first for any store and collaborators, then for concrete runs.
 */
module OrderScenarios {
  import opened Wrappers
  import opened OrderModel
  import opened OrderRepository
  import opened OrderService

  /**
   * Once placement has returned an id, reading that id with healthy lookups
   * shows a final status, PLACED exactly when the payment call returned, and
   * never CREATED. If the reservation failed the store is as it was.
   */
  method PlaceThenRead(
    service: OrderServiceImpl,
    orderRequest: OrderRequest,
    now: Instant,
    reduceQuantity: (int, int) -> Reservation,
    doPayment: PaymentRequest -> PaymentOutcome,
    getProductById: int -> Result<Option<Product>, ClientError>,
    getPaymentByOrderId: int -> Result<Option<PaymentResponse>, ClientError>)
    returns (placed: Result<int, Exception>, view: Option<Result<OrderResponse, Exception>>)
    requires service.orderRepository.Valid()
    modifies service.orderRepository
    ensures placed.Failure? <==> reduceQuantity(orderRequest.productId, orderRequest.quantity).ReservationFailed?
    ensures placed.Failure? ==> view == None
    ensures placed.Failure? ==> service.orderRepository.orders == old(service.orderRepository.orders)
    ensures placed.Failure? ==> service.orderRepository.trace == old(service.orderRepository.trace)
    ensures placed.Success? ==> placed.value !in old(service.orderRepository.orders)
    ensures placed.Success?
            && getProductById(orderRequest.productId).Success? && getProductById(orderRequest.productId).value.Some?
            && getPaymentByOrderId(placed.value).Success? && getPaymentByOrderId(placed.value).value.Some? ==>
      && view.Some? && view.value.Success?
      && view.value.value.orderId == placed.value
      && view.value.value.orderStatus.Some?
      && IsFinalStatus(view.value.value.orderStatus.value)
      && view.value.value.orderStatus.value != CREATED
      && (view.value.value.orderStatus.value == PLACED
          <==> doPayment(PaymentRequestFor(placed.value, orderRequest)).Paid?)
  {
    placed := service.PlaceOrder(orderRequest, now, reduceQuantity, doPayment);
    if placed.Failure? {
      return placed, None;
    }
    var details := GetOrderDetails(service.orderRepository.orders, placed.value, getProductById, getPaymentByOrderId);
    view := Some(details);
  }

  /** Placing with an empty store: reservation succeeds and payment returns 77. */
  method PaymentSucceeds() returns (orderId: int, view: Result<OrderResponse, Exception>)
    ensures orderId != 0
    ensures view.Success?
    ensures view.value.orderStatus == Some(PLACED)
    ensures view.value.productDetails.Some? && view.value.productDetails.value.productId == 1
    ensures view.value.paymentDetails.Some? && view.value.paymentDetails.value.paymentId == 77
  {
    var store := new OrderStore();
    var service := new OrderServiceImpl(store);
    var cash := PaymentMode("CASH");
    var placed := service.PlaceOrder(
      OrderRequest(1, 100, 2, cash), 0, (productId, quantity) => Reserved, request => Paid(77));
    orderId := placed.value;
    view := GetOrderDetails(store.orders, orderId,
      productId => Success(Some(Product(productId, "Soap"))),
      id => Success(Some(PaymentResponse(77, "SUCCESS", cash, 0))));
  }

  /** The same request, but the payment call throws: the order still exists, as PAYMENT_FAILED. */
  method PaymentThrows() returns (orderId: int, view: Result<OrderResponse, Exception>)
    ensures orderId != 0
    ensures view.Success?
    ensures view.value.orderStatus == Some(PAYMENT_FAILED)
  {
    var store := new OrderStore();
    var service := new OrderServiceImpl(store);
    var cash := PaymentMode("CASH");
    var placed := service.PlaceOrder(
      OrderRequest(1, 100, 2, cash), 0, (productId, quantity) => Reserved,
      request => PaymentThrew(ClientError("payment service unavailable")));
    orderId := placed.value;
    view := GetOrderDetails(store.orders, orderId,
      productId => Success(Some(Product(productId, "Soap"))),
      id => Success(Some(PaymentResponse(0, "FAILED", cash, 0))));
  }

  /** The reservation throws: the error comes back, nothing is saved, no payment request is sent and no record exists. */
  method ReservationThrows()
    returns (placed: Result<int, Exception>, stored: map<int, Order>,
             ghost trace: seq<Event>)
    ensures placed == Failure(ClientException(ClientError("insufficient stock")))
    ensures stored == map[]
    ensures trace == []
  {
    var store := new OrderStore();
    var service := new OrderServiceImpl(store);
    placed := service.PlaceOrder(
      OrderRequest(1, 100, 2, PaymentMode("CASH")), 0,
      (productId, quantity) => ReservationFailed(ClientError("insufficient stock")),
      request => Paid(77));
    stored, trace := store.orders, store.trace;
  }
}
