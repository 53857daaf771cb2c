/** The payment endpoints (backend/controllers/paymentController.js): guard chains in front of the
    payment service, and the order-plus-intent flow from the caller's cart. A thrown error is caught and
    answered with 500 and a fixed message per endpoint. */
module PaymentController {
  import opened Common
  import opened OrderModel
  import opened FoodCatalog
  import CartModel
  import opened NotificationService
  import opened Razorpay
  import opened PaymentService
  import OrderController

  const AccessDenied: string := "Access denied"
  const AlreadyPaid: string := "Order is already paid"
  const InitializeFailed: string := "Failed to initialize payment"
  const MissingVerificationFields: string := "Missing payment verification parameters"
  const CartIsEmpty: string := "Cart is empty"
  const CartPaymentFailed: string := "Failed to process payment from cart"
  const NoPaymentDetails: string := "Order has no payment details"
  const AlreadyRefunded: string := "Order is already refunded"
  const RefundFailed: string := "Failed to process refund"
  const AdminRefundReason: string := "Admin initiated refund"
  const MissingWebhookSignature: string := "Missing webhook signature"
  const WebhookFailed: string := "Webhook processing failed"
  const CartPaymentNote: string := "Order created from cart, payment pending"

  /** `{ currency = 'INR' }`: the default applies only when the field is absent. */
  function CurrencyOf(currency: Option<string>): string
  {
    if currency.Some? then currency.value else "INR"
  }

  /** `initializePayment`: 404, 403 unless admin or owner, 400 for a paid order, then the intent for
      the order's `totalAmount`; a gateway failure is answered with 500. */
  function InitializePayment(orders: map<string, Order>, caller: Caller, orderId: string, currency: Option<string>,
                             now: int, gateway: OrderRequest -> Result<GatewayOrder>): (r: Reply<PaymentIntent>)
    ensures orderId !in orders ==> r == Reply(404, OrderNotFound, None)
    ensures orderId in orders && !MayAccess(caller.role, caller.id, orders[orderId]) ==> r == Reply(403, AccessDenied, None)
    ensures orderId in orders && MayAccess(caller.role, caller.id, orders[orderId]) && orders[orderId].paymentStatus == "Paid" ==>
      r == Reply(400, AlreadyPaid, None)
    ensures r.code == 200 <==>
      orderId in orders && MayAccess(caller.role, caller.id, orders[orderId]) && orders[orderId].paymentStatus != "Paid" &&
      CreatePaymentOrder(orderId, orders[orderId].totalAmount, CurrencyOf(currency), now, gateway).Ok?
    ensures r.code == 200 ==>
      r.body == Some(CreatePaymentOrder(orderId, orders[orderId].totalAmount, CurrencyOf(currency), now, gateway).value)
  {
    if orderId !in orders then Reply(404, OrderNotFound, None)
    else
      var o := orders[orderId];
      if !MayAccess(caller.role, caller.id, o) then Reply(403, AccessDenied, None)
      else if o.paymentStatus == "Paid" then Reply(400, AlreadyPaid, None)
      else
        match CreatePaymentOrder(orderId, o.totalAmount, CurrencyOf(currency), now, gateway)
        case Err(_) => Reply(500, InitializeFailed, None)
        case Ok(intent) => Reply(200, "", Some(intent))
  }

  /** A successful initialization charges exactly the order's total when it is a whole number of paise,
      and never happens for an order that is already paid. */
  lemma InitializeChargesTotal(orders: map<string, Order>, caller: Caller, orderId: string, currency: Option<string>,
                               now: int, gateway: OrderRequest -> Result<GatewayOrder>)
    requires orderId in orders && WholePaise(orders[orderId].totalAmount)
    ensures var r := InitializePayment(orders, caller, orderId, currency, now, gateway);
      r.code == 200 ==>
        orders[orderId].paymentStatus != "Paid" && ParseAmount(r.body.value.amount as real) == orders[orderId].totalAmount
  {
    IntentChargesAmount(orderId, orders[orderId].totalAmount, CurrencyOf(currency), now, gateway);
  }

  /** The body of `verifyPayment`; `""` stands for an absent field. */
  datatype VerifyRequest = VerifyRequest(paymentId: string, razorpayOrderId: string, signature: string, orderId: string)

  predicate FieldsPresent(req: VerifyRequest)
  {
    req.paymentId != "" && req.razorpayOrderId != "" && req.signature != "" && req.orderId != ""
  }

  /** `verifyPayment`, with the corrected signature check: missing fields and a wrong signature are
      refused before the order is looked up; a genuine payment of a known order is recorded as paid. */
  method VerifyPayment(store: OrderStore, hub: Hub, hmac: (string, string) -> string, secret: string,
                       req: VerifyRequest, now: int) returns (resp: Reply<Order>)
    requires store.Valid()
    modifies store, hub`sent
    ensures store.Valid()
    ensures !FieldsPresent(req) ==>
      resp == Reply(400, MissingVerificationFields, None) && store.orders == old(store.orders) && hub.sent == old(hub.sent)
    ensures FieldsPresent(req) && req.signature != hmac(secret, req.razorpayOrderId + "|" + req.paymentId) ==>
      resp == Reply(400, VerificationFailed, None) && store.orders == old(store.orders) && hub.sent == old(hub.sent)
    ensures FieldsPresent(req) && req.signature == hmac(secret, req.razorpayOrderId + "|" + req.paymentId) ==>
      (req.orderId !in old(store.orders) ==>
        resp == Reply(404, OrderNotFound, None) && store.orders == old(store.orders) && hub.sent == old(hub.sent)) &&
      (req.orderId in old(store.orders) ==>
        var saved := WithPaymentSuccess(old(store.orders)[req.orderId], req.paymentId, now);
        resp == Reply(200, "", Some(saved)) && store.orders == old(store.orders)[req.orderId := saved] &&
        hub.sent == old(hub.sent) + hub.StatusEmissions(saved.userId, saved, "Payment Successful", now))
  {
    if !FieldsPresent(req) {
      return Reply(400, MissingVerificationFields, None);
    }
    var v := PaymentService.VerifyPayment(hmac, secret, req.paymentId, req.razorpayOrderId, req.signature);
    if !v.value.verified {
      return Reply(400, VerificationFailed, None);
    }
    var found := store.Find(req.orderId);
    if found.None? {
      return Reply(404, OrderNotFound, None);
    }
    var r := ProcessSuccessfulPayment(store, hub, req.paymentId, req.orderId, found.value.totalAmount * 100.0, now);
    resp := Reply(200, "", Some(r.value));
  }

  /** How `verifyPayment` ends over the service as written, before any order is read: Some(code) when it
      answers, None when it would go on to the order. The service's error lands in the catch: 500. */
  function VerifyPaymentAnswerAsWritten(hmac: (string, string) -> string, secret: string, req: VerifyRequest): (code: Option<int>)
    ensures !FieldsPresent(req) ==> code == Some(400)
  {
    if !FieldsPresent(req) then Some(400)
    else match VerifyPaymentAsWritten(hmac, secret, req.paymentId, req.razorpayOrderId, req.signature)
      case Err(_) => Some(500)
      case Ok(v) => if v.verified then None else Some(400)
  }

  /** As written, every request that carries the four fields is answered 500, the genuine one included. */
  lemma AsWrittenVerifyAnswers500(hmac: (string, string) -> string, secret: string, req: VerifyRequest)
    requires FieldsPresent(req)
    ensures VerifyPaymentAnswerAsWritten(hmac, secret, req) == Some(500)
  {
  }

  /** The body fields `processPaymentFromCart` reads; `""` and None stand for absent fields. */
  datatype CartPaymentRequest = CartPaymentRequest(deliveryAddress: string, specialInstructions: string,
                                                   orderType: Option<string>, phone: string, currency: Option<string>)

  /** The order `processPaymentFromCart` builds: always in the caller's name, with the schema's empty
      payment method. */
  function CartPaymentOrder(caller: Caller, req: CartPaymentRequest, cart: CartModel.Cart, lines: seq<OrderItem>,
                            id: string, now: int): (o: Order)
    ensures o.id == id && o.userId == Some(caller.id) && o.customerName == caller.name
    ensures o.items == lines && o.totalAmount == cart.totalAmount
    ensures o.status == "Pending" && o.paymentStatus == "Pending"
    ensures o.statusHistory == [HistoryEntry("Pending", now, None, CartPaymentNote)]
    ensures o.deliveryDetails.Some? && o.deliveryDetails.value.address == OrElse(req.deliveryAddress, "Not specified")
    ensures o.orderType == OrderController.OrderTypeOf(req.orderType)
  {
    Order(id, caller.name, Some(caller.id), lines, cart.totalAmount, "Pending",
          [HistoryEntry("Pending", now, None, CartPaymentNote)],
          Some(DeliveryDetails(OrElse(req.deliveryAddress, "Not specified"), OrElse(req.phone, caller.phone), None, None, "", "")),
          None, req.specialInstructions, "", "Pending", "", OrderController.OrderTypeOf(req.orderType), "Normal")
  }

  /** The cart order passes validation exactly when the caller has a name and the order type is known. */
  lemma CartPaymentOrderConforms(caller: Caller, req: CartPaymentRequest, cart: CartModel.Cart, c: Catalog, id: string, now: int)
    requires CartModel.Conforms(cart) && OrderController.AllPopulated(c, cart.items)
    ensures OrderModel.Conforms(CartPaymentOrder(caller, req, cart, OrderController.OrderLines(c, cart.items).value, id, now)) <==>
      caller.name != "" && OrderController.OrderTypeOf(req.orderType) in OrderTypeValues
  {
    var o := CartPaymentOrder(caller, req, cart, OrderController.OrderLines(c, cart.items).value, id, now);
    assert o.status in StatusValues;
    assert o.priority in PriorityValues;
    assert o.paymentStatus in PaymentStatusValues;
  }

  /** `processPaymentFromCart`. The order is saved before the gateway is asked, so a gateway failure
      leaves a pending order behind and the cart as it was; the cart is emptied only once the intent
      exists. */
  method ProcessPaymentFromCart(store: OrderStore, carts: CartModel.CartStore, c: Catalog, caller: Caller,
                                req: CartPaymentRequest, newId: string, now: int,
                                gateway: OrderRequest -> Result<GatewayOrder>) returns (resp: Reply<PaymentIntent>)
    requires store.Valid() && carts.Valid()
    requires newId !in store.orders
    modifies store, carts
    ensures store.Valid() && carts.Valid()
    ensures caller.id !in old(carts.carts) || old(carts.carts)[caller.id].items == [] ==>
      resp == Reply(400, CartIsEmpty, None) && store.orders == old(store.orders) && carts.carts == old(carts.carts)
    ensures caller.id in old(carts.carts) && old(carts.carts)[caller.id].items != [] ==>
      var cart := old(carts.carts)[caller.id];
      var lines := OrderController.OrderLines(c, cart.items);
      (lines.None? || !OrderModel.Conforms(CartPaymentOrder(caller, req, cart, lines.value, newId, now)) ==>
        resp == Reply(500, CartPaymentFailed, None) && store.orders == old(store.orders) && carts.carts == old(carts.carts)) &&
      (lines.Some? && OrderModel.Conforms(CartPaymentOrder(caller, req, cart, lines.value, newId, now)) ==>
        var saved := AfterHook(CartPaymentOrder(caller, req, cart, lines.value, newId, now), true, now);
        var intent := CreatePaymentOrder(newId, saved.totalAmount, CurrencyOf(req.currency), now, gateway);
        store.orders == old(store.orders)[newId := saved] &&
        (intent.Err? ==> resp == Reply(500, CartPaymentFailed, None) && carts.carts == old(carts.carts)) &&
        (intent.Ok? ==>
          resp == Reply(200, "", Some(intent.value)) && carts.carts == old(carts.carts)[caller.id := cart.(items := [], totalAmount := 0.0)]))
  {
    var found := carts.FindByUser(caller.id);
    if found.None? || found.value.items == [] {
      return Reply(400, CartIsEmpty, None);
    }
    var cart := found.value;
    var lines := OrderController.OrderLines(c, cart.items);
    if lines.None? {
      return Reply(500, CartPaymentFailed, None);
    }
    var doc := new OrderDoc.Create(CartPaymentOrder(caller, req, cart, lines.value, newId, now), true);
    var saved := store.Save(doc, now);
    if saved.Err? {
      return Reply(500, CartPaymentFailed, None);
    }
    var intent := CreatePaymentOrder(newId, saved.value.totalAmount, CurrencyOf(req.currency), now, gateway);
    if intent.Err? {
      return Reply(500, CartPaymentFailed, None);
    }
    OrderController.ClearCart(carts, c, cart);
    resp := Reply(200, "", Some(intent.value));
  }

  /** `amount || order.totalAmount`: an absent or zero amount refunds the whole order. */
  function RefundAmount(amount: Option<real>, o: Order): (a: real)
    ensures amount.Some? && amount.value != 0.0 ==> a == amount.value
    ensures amount.None? || amount.value == 0.0 ==> a == o.totalAmount
  {
    if amount.Some? && amount.value != 0.0 then amount.value else o.totalAmount
  }

  /** The payment id the refund guard tests: `order.paymentDetails?.razorpayPaymentId`, `""` when absent. */
  function GatewayPaymentId(o: Order): (id: string)
    ensures id != "" ==> o.paymentDetails.Some? && o.paymentDetails.value.razorpayPaymentId == Some(id)
  {
    if o.paymentDetails.Some? && o.paymentDetails.value.razorpayPaymentId.Some? then o.paymentDetails.value.razorpayPaymentId.value
    else ""
  }

  /** The refund guard chain: the refund goes ahead exactly for a known order that has a gateway payment
      id and is not already refunded; Paid is not required. */
  predicate RefundAllowed(orders: map<string, Order>, orderId: string)
  {
    orderId in orders && GatewayPaymentId(orders[orderId]) != "" && orders[orderId].paymentStatus != "Refunded"
  }

  /** A failed payment that carries a gateway id passes the guard. */
  lemma FailedPaymentRefundable(orders: map<string, Order>, orderId: string, paymentId: string)
    requires orderId in orders && orders[orderId].paymentStatus == "Failed"
    requires orders[orderId].paymentDetails.Some? && orders[orderId].paymentDetails.value.razorpayPaymentId == Some(paymentId)
    requires paymentId != ""
    ensures RefundAllowed(orders, orderId)
  {
  }

  /** `processRefund` (admin only): the guard chain, then the service refund with the amount and reason
      defaults; a gateway error becomes 500 with the order untouched. */
  method ProcessRefund(store: OrderStore, hub: Hub, orderId: string, amount: Option<real>, reason: string, now: int,
                       gateway: RefundRequest -> Result<string>) returns (resp: Reply<Order>)
    requires store.Valid()
    modifies store, hub`sent
    ensures store.Valid()
    ensures orderId !in old(store.orders) ==>
      resp == Reply(404, OrderNotFound, None) && store.orders == old(store.orders) && hub.sent == old(hub.sent)
    ensures orderId in old(store.orders) && GatewayPaymentId(old(store.orders)[orderId]) == "" ==>
      resp == Reply(400, NoPaymentDetails, None) && store.orders == old(store.orders) && hub.sent == old(hub.sent)
    ensures orderId in old(store.orders) && GatewayPaymentId(old(store.orders)[orderId]) != "" &&
            old(store.orders)[orderId].paymentStatus == "Refunded" ==>
      resp == Reply(400, AlreadyRefunded, None) && store.orders == old(store.orders) && hub.sent == old(hub.sent)
    ensures RefundAllowed(old(store.orders), orderId) ==>
      var o := old(store.orders)[orderId];
      var refund := gateway(RefundRequest(GatewayPaymentId(o), FormatAmount(RefundAmount(amount, o)),
                                          OrElse(reason, AdminRefundReason), orderId));
      (refund.Err? ==> resp == Reply(500, RefundFailed, None) && store.orders == old(store.orders) && hub.sent == old(hub.sent)) &&
      (refund.Ok? ==>
        var saved := WithRefund(o, refund.value, RefundAmount(amount, o), OrElse(reason, AdminRefundReason), now);
        resp == Reply(200, "", Some(saved)) && store.orders == old(store.orders)[orderId := saved] &&
        hub.sent == old(hub.sent) + hub.StatusEmissions(saved.userId, saved, "Payment Refunded", now))
    ensures resp.code == 200 ==> RefundAllowed(old(store.orders), orderId)
  {
    var found := store.Find(orderId);
    if found.None? {
      return Reply(404, OrderNotFound, None);
    }
    var o := found.value;
    if GatewayPaymentId(o) == "" {
      return Reply(400, NoPaymentDetails, None);
    }
    if o.paymentStatus == "Refunded" {
      return Reply(400, AlreadyRefunded, None);
    }
    var r := PaymentService.ProcessRefund(store, hub, GatewayPaymentId(o), orderId, RefundAmount(amount, o),
                                          Some(OrElse(reason, AdminRefundReason)), now, gateway);
    if r.Err? {
      return Reply(500, RefundFailed, None);
    }
    resp := Reply(200, "", Some(r.value));
  }

  /** The body of a `getPaymentStatus` answer; `paymentDetails` is None for the `{}` of an order without
      payment details. */
  datatype PaymentStatusView = PaymentStatusView(paymentStatus: string, totalAmount: real, paymentDetails: Option<PaymentDetails>)

  /** The fields `findById(...).select(...)` loads: `_id` always, `userId` only when it is selected. */
  function Selected(o: Order, withUserId: bool): (p: Order)
    ensures p.id == o.id && p.paymentStatus == o.paymentStatus && p.totalAmount == o.totalAmount && p.paymentDetails == o.paymentDetails
    ensures p.userId == if withUserId then o.userId else None
  {
    o.(userId := if withUserId then o.userId else None)
  }

  /** `getPaymentStatus` reading the projection `Selected(_, withUserId)`. */
  function GetPaymentStatusFrom(orders: map<string, Order>, caller: Caller, orderId: string, withUserId: bool): (r: Reply<PaymentStatusView>)
    ensures orderId !in orders ==> r == Reply(404, OrderNotFound, None)
    ensures r.code == 200 <==> orderId in orders && MayAccess(caller.role, caller.id, Selected(orders[orderId], withUserId))
    ensures r.code == 200 ==>
      r.body == Some(PaymentStatusView(orders[orderId].paymentStatus, orders[orderId].totalAmount, orders[orderId].paymentDetails))
    ensures orderId in orders && r.code != 200 ==> r == Reply(403, AccessDenied, None)
  {
    if orderId !in orders then Reply(404, OrderNotFound, None)
    else
      var o := Selected(orders[orderId], withUserId);
      if !MayAccess(caller.role, caller.id, o) then Reply(403, AccessDenied, None)
      else Reply(200, "", Some(PaymentStatusView(o.paymentStatus, o.totalAmount, o.paymentDetails)))
  }

  /** `getPaymentStatus` as written: the projection leaves `userId` out, so only an admin gets 200. */
  function GetPaymentStatusAsWritten(orders: map<string, Order>, caller: Caller, orderId: string): (r: Reply<PaymentStatusView>)
    ensures orderId !in orders ==> r == Reply(404, OrderNotFound, None)
    ensures r.code == 200 <==> orderId in orders && caller.role == "admin"
  {
    GetPaymentStatusFrom(orders, caller, orderId, false)
  }

  /** As written, only admins ever see a payment status: the owner of the order gets 403. */
  lemma AsWrittenDeniesOwner(orders: map<string, Order>, caller: Caller, orderId: string)
    requires orderId in orders && caller.role != "admin"
    ensures GetPaymentStatusAsWritten(orders, caller, orderId) == Reply(403, AccessDenied, None)
    ensures orders[orderId].userId == Some(caller.id) ==> GetPaymentStatus(orders, caller, orderId).code == 200
  {
  }

  /** `getPaymentStatus` with `userId` selected as well, as evidently intended: exactly admins and the
      order's owner get its stored payment state. */
  function GetPaymentStatus(orders: map<string, Order>, caller: Caller, orderId: string): (r: Reply<PaymentStatusView>)
    ensures orderId !in orders ==> r == Reply(404, OrderNotFound, None)
    ensures orderId in orders ==> (r.code == 200 <==> MayAccess(caller.role, caller.id, orders[orderId]))
    ensures r.code == 200 ==> var o := orders[orderId];
      r.body == Some(PaymentStatusView(o.paymentStatus, o.totalAmount, o.paymentDetails))
  {
    assert orderId in orders ==> Selected(orders[orderId], true) == orders[orderId];
    GetPaymentStatusFrom(orders, caller, orderId, true)
  }

  /** `handleWebhook`: a missing signature header is 400; the body the signature is checked against is
      the re-serialised event `stringify(e)`, not the raw request bytes; any service error is 500. */
  method HandleWebhook(store: OrderStore, hub: Hub, hmac: (string, string) -> string, secret: string,
                       stringify: WebhookEvent -> string, e: WebhookEvent, signature: string, now: int)
    returns (resp: Response)
    requires store.Valid()
    modifies store, hub`sent
    ensures store.Valid()
    ensures signature == "" ==> resp == Response(400, MissingWebhookSignature) && store.orders == old(store.orders) && hub.sent == old(hub.sent)
    ensures signature != "" && !VerifyWebhookSignature(hmac, secret, stringify(e), signature) ==>
      resp == Response(500, WebhookFailed) && store.orders == old(store.orders) && hub.sent == old(hub.sent)
    ensures signature != "" && VerifyWebhookSignature(hmac, secret, stringify(e), signature) ==>
      var change := WebhookChange(old(store.orders), e, now);
      (change.Err? ==> resp == Response(500, WebhookFailed)) && (change.Ok? ==> resp == Response(200, WebhookProcessed)) &&
      store.orders == Applied(old(store.orders), change) &&
      hub.sent == old(hub.sent) + Announced(hub, change, WebhookNotice(e), now)
  {
    var body := stringify(e);
    if signature == "" {
      return Response(400, MissingWebhookSignature);
    }
    var r := HandleWebhookEvent(store, hub, hmac, secret, e, signature, body, now);
    if r.Err? {
      return Response(500, WebhookFailed);
    }
    resp := Response(200, WebhookProcessed);
  }
}
