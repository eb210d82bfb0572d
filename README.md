# Order placement and order detail: a Dafny model

This project models the order service of a three-service ordering application
(products, payment, orders). The order service places an order in four fixed
steps:

1. Reserve stock through the product service.
2. Save a new order with status `CREATED`. The store assigns the id.
3. Call the payment service.
4. Save the same record again with status `PLACED` or `PAYMENT_FAILED`, and return its id.

It also reads an order back as a detail view assembled from the stored order,
the product lookup and the payment lookup. A fallback returns an empty view.

Layout:

- `wrappers.dfy`: `Option` (Java null) and `Result` (a value or a thrown exception).
- `decimal.dfy`: Java's `"" + n` for a `long`, and a reader that inverts it.
- `order_model.dfy`: the records, the status strings and the exceptions.
  It also has the outcomes of the remote calls.
- `order_store.dfy`: the order repository as a class holding a `map<int, Order>` and a next-id counter.
  Its two save operations are `Create` (new record, fresh id) and `Update` (existing id).
  A ghost trace records, in order, each save and each payment request sent.
- `order_service.dfy`: the service class `OrderServiceImpl`, holding the store. Its imperative method `PlaceOrder` updates the store through `Create` and `Update`.
  `GetOrderDetails` and `GetNoPaymentResponse` are pure functions over the store's map.
- `scenarios.dfy`: clients that place an order and read it back.

The remote collaborators are function parameters that give each call's outcome:
`reduceQuantity` (reserved, or the exception thrown), `doPayment` (a payment id,
or the exception thrown), and the product and payment lookups.

Where the code and its comments differ, the model follows the code:

- A failed payment leaves the order `PAYMENT_FAILED`. The comment at
  `OrderServiceImpl.java` lines 40-43 says `CANCELLED`.
- The payment mode is not copied onto the stored order, so `Order.paymentMode` stays `None`.
- The payment reference number is the decimal text of the product id, not of the order id.
  `ReferenceNumberIdentifiesProduct` states the consequence: two orders for the same
  product send the same reference number.
- The detail read makes the product call first and the payment call second, and reads neither response body until both calls have returned.
  An exception from the product call is reported first, then one from the payment call.
  Only then does a null body fail: the product body is read first, then the payment body.

## Model

| member | source | states |
|---|---|---|
| `OrderService.OrderServiceImpl.PlaceOrder` | order/src/main/java/com/example/order/service/OrderServiceImpl.java:36-86 | A failed reservation's exception propagates. The trace does not grow, so nothing is saved and no payment request is sent, and the store is unchanged. After a successful reservation it returns normally with a fresh id that was not in the store. The trace grows by exactly three steps, in this order: the first save, one payment request, the second save. The first save holds the request's product id, quantity and amount, the given date, no payment mode and status CREATED. The payment request is built from that id. The second save is the same record with only its status changed: PLACED if payment returned, PAYMENT_FAILED if it threw. The store afterwards is the old store plus that one final record. |
| `OrderService.StatusAfterPayment` | order/src/main/java/com/example/order/service/OrderServiceImpl.java:71-80 | The status is PLACED exactly when the payment call returned and PAYMENT_FAILED exactly when it threw. It is always a final status. |
| `OrderService.PaymentRequestFor` | order/src/main/java/com/example/order/service/OrderServiceImpl.java:63-69 | The payment request carries the saved order's id and the request's payment mode and total amount. Its reference number is exactly Java's decimal text of the product id, and reads back as the product id. |
| `OrderService.ReferenceNumberIdentifiesProduct` | order/src/main/java/com/example/order/service/OrderServiceImpl.java:68 | Two payment requests carry equal reference numbers exactly when their product ids are equal, whatever their order ids. |
| `OrderService.NotFoundException` | order/src/main/java/com/example/order/service/OrderServiceImpl.java:94-96 | The exception for an unknown id has error code NOT_FOUND. Its message is the fixed text followed by Java's decimal text of the id, and the part after the fixed text reads back as the id. |
| `OrderService.GetOrderDetails` | order/src/main/java/com/example/order/service/OrderServiceImpl.java:90-134 | It fails with the NOT_FOUND exception exactly when the id is absent. Otherwise an exception from the product call is reported first, then one from the payment call. After both calls return, a null response body gives a null-pointer failure. When both calls return a body, the view takes id, status, amount and date from the stored order, name and id from the product, and id, status, date and mode from the payment. |
| `OrderService.GetNoPaymentResponse` | order/src/main/java/com/example/order/service/OrderServiceImpl.java:136-138 | The fallback view has zero id and amount and no status, date, product or payment details, for every id and cause. |
| `OrderService.FallbackIsDistinct` | order/src/main/java/com/example/order/service/OrderServiceImpl.java:90-138 | No successful detail view equals the fallback view. An unknown id yields the NOT_FOUND failure, never a view. |
| `OrderService.DetailsAnswerForAskedId` | order/src/main/java/com/example/order/service/OrderServiceImpl.java:94-124 | In a store whose records sit under their own ids, a successful read is for a stored id and reports that id. |
| `OrderRepository.OrderStore.Create` | order/src/main/java/com/example/order/service/OrderServiceImpl.java:59 | The first save stores the record under a fresh id that was not in use. It adds exactly that one key, returns the record with its id set, and appends that save to the trace. |
| `OrderRepository.OrderStore.Update` | order/src/main/java/com/example/order/service/OrderServiceImpl.java:82-83 | The second save replaces the record under its id and appends that save to the trace. No key is added or removed. |
| `Decimal.ToDecimalString` | order/src/main/java/com/example/order/service/OrderServiceImpl.java:68 | The decimal text of a long is non-empty. It starts with a minus sign exactly when the number is negative, and is otherwise all digits. It has no leading zero: zero is "0", and there is no "-0". |
| `Decimal.Digits` | order/src/main/java/com/example/order/service/OrderServiceImpl.java:68 | The digits of a natural number are non-empty, all digits, and have no leading zero except for zero itself. |
| `Decimal.DecimalRoundTrip` | order/src/main/java/com/example/order/service/OrderServiceImpl.java:68 | Reading back the decimal text of any number gives that number. |
| `Decimal.DecimalStringInjective` | order/src/main/java/com/example/order/service/OrderServiceImpl.java:68 | Two numbers have the same decimal text exactly when they are equal. |
| `OrderScenarios.PlaceThenRead` | order/src/main/java/com/example/order/service/OrderServiceImpl.java:36-134 | Placement fails exactly when the reservation fails, and then the store is unchanged and nothing is read. Otherwise the returned id was not in the store before, with both calls returning a body, reading the returned id shows that id and a final status, never CREATED. The status is PLACED exactly when the payment call returned. |
| `OrderScenarios.PaymentSucceeds` | order/src/main/java/com/example/order/service/OrderServiceImpl.java:36-134 | On an empty store, with the reservation succeeding and payment returning 77, the returned id is non-zero. Reading it shows PLACED, product id 1 and payment id 77. |
| `OrderScenarios.PaymentThrows` | order/src/main/java/com/example/order/service/OrderServiceImpl.java:36-134 | When payment throws, the returned id is still non-zero and reading it shows PAYMENT_FAILED. |
| `OrderScenarios.ReservationThrows` | order/src/main/java/com/example/order/service/OrderServiceImpl.java:36-59 | When the reservation throws, that exception comes back. The trace stays empty, so nothing is saved and no payment request is sent, and the store holds no record. |

## Left out

- The circuit breaker on the detail read (`OrderServiceImpl.java` line 89) comes from a library that is not part of this model.
  Its thresholds and its choice of which failures trigger the fallback are configuration that is not shown either.
  `GetOrderDetails` is modelled without it, and the fallback is a separate function.
- The HTTP clients for the product and payment services are remote I/O.
  Each call is a function parameter giving that call's outcome. For a lookup, the outcome is either the exception the call threw or the response body, which may be null.
- The unused `RestTemplate` field is left out.
- The clock (`Instant.now()`) is a parameter. Logging is left out.
- The repository is assumed never to fail. Its id generation is modelled as the counter 1, 2, 3, …; the real strategy is not shown.
- The entity and payload classes (`Order`, `OrderRequest`, `OrderResponse`, `Product`, `PaymentResponse`) are not part of this model.
  Only the fields the service sets or reads are modelled.
  `OrderResponse.orderId` and `amount` are taken to be primitive `long`s, so `new OrderResponse()` leaves them 0.
  If they were boxed `Long`s they would be null instead; `GetNoPaymentResponse` states the primitive reading.
- The trace is ghost state. It records each save and each payment request sent, in one sequence and in the order they happen.
  The store's own save operations append the saves. `PlaceOrder` appends the payment request where it makes the payment call.
  The trace does not record the reservation call or the lookups; the reservation's place in the order comes from the failure path, where nothing is appended.
- The product service's own stock decrement is not modelled. The code has no rollback of the reservation after a failed payment, so neither does the model.
- The controllers, the application start-up classes and the service interfaces that have no implementation shown are left out.
- `OrderService.OrderServiceImpl.PlaceOrder`: ids, quantities and amounts are unbounded integers. The model does not capture 64-bit `long` overflow.
- `Decimal.ToDecimalString`: defined for every integer. Java's `long` range is not enforced.
