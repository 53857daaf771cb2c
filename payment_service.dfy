/** Payment reconciliation (backend/services/paymentService.js): creating a gateway order, checking a
    client-side payment signature, and recording a payment's success, failure or refund on the order,
    directly or from a gateway webhook. The gateway calls and HMAC-SHA256 are parameters. */
module PaymentService {
  import opened Common
  import opened OrderModel
  import opened NotificationService
  import opened Razorpay

  const OrderNotFound: string := "Order not found"
  const CreateFailed: string := "Failed to create payment order"
  const VerificationFailed: string := "Payment verification failed"
  const InvalidSignature: string := "Invalid signature"
  const InvalidWebhookSignature: string := "Invalid webhook signature"
  const WebhookProcessed: string := "Webhook processed successfully"
  const DefaultRefundReason: string := "Customer request"

  /** The options sent to `razorpay.orders.create`. */
  datatype OrderRequest = OrderRequest(amount: int, currency: string, receipt: string, orderId: string, description: string)

  /** What the gateway answers: its order id and the receipt it echoes. */
  datatype GatewayOrder = GatewayOrder(id: string, receipt: string)

  /** The result of `createPaymentOrder` handed to the client. */
  datatype PaymentIntent = PaymentIntent(razorpayOrderId: string, amount: int, currency: string, receipt: string)

  function PaymentRequest(orderId: string, amount: real, currency: string, now: int): (req: OrderRequest)
    ensures req.amount == FormatAmount(amount) && req.currency == currency && req.orderId == orderId
    ensures req.receipt == GenerateRazorpayOrderId(orderId, amount, now)
  {
    OrderRequest(FormatAmount(amount), currency, GenerateRazorpayOrderId(orderId, amount, now), orderId,
                 "Payment for Order #" + orderId)
  }

  /** `createPaymentOrder`: the gateway is asked for the amount in paise, tagged with the local order id;
      any gateway failure becomes 'Failed to create payment order'. */
  function CreatePaymentOrder(orderId: string, amount: real, currency: string, now: int,
                              gateway: OrderRequest -> Result<GatewayOrder>): (r: Result<PaymentIntent>)
    ensures r.Err? <==> gateway(PaymentRequest(orderId, amount, currency, now)).Err?
    ensures r.Err? ==> r.message == CreateFailed
    ensures r.Ok? ==>
      var g := gateway(PaymentRequest(orderId, amount, currency, now)).value;
      r.value == PaymentIntent(g.id, FormatAmount(amount), currency, g.receipt)
  {
    var req := PaymentRequest(orderId, amount, currency, now);
    match gateway(req)
    case Err(_) => Err(CreateFailed)
    case Ok(g) => Ok(PaymentIntent(g.id, req.amount, currency, g.receipt))
  }

  /** The intent charges exactly the order amount when that amount is a whole number of paise. */
  lemma IntentChargesAmount(orderId: string, amount: real, currency: string, now: int,
                            gateway: OrderRequest -> Result<GatewayOrder>)
    requires WholePaise(amount)
    ensures var r := CreatePaymentOrder(orderId, amount, currency, now, gateway);
      r.Ok? ==> ParseAmount(r.value.amount as real) == amount
  {
    ParseFormat(amount);
  }

  /** The outcome of `verifyPayment`. */
  datatype Verification = Verification(verified: bool, message: string)

  /** The names the service module has in scope: its `require`s at the top of the file. */
  const ServiceBindings: set<string> :=
    {"razorpay", "verifyWebhookSignature", "generateRazorpayOrderId", "formatAmount", "parseAmount",
     "Order", "notifyUserOrderStatusChange"}

  /** `verifyPayment` evaluated with the names in `bindings`: without a `crypto` module providing
      `createHmac` in scope the HMAC call throws, and the catch rethrows 'Payment verification failed'; with it, the signature is compared
      with the hex HMAC of `<orderId>|<paymentId>` under the key secret. */
  function VerifyPaymentIn(bindings: set<string>, hmac: (string, string) -> string, secret: string,
                           paymentId: string, orderId: string, signature: string): (r: Result<Verification>)
    ensures "crypto" !in bindings ==> r == Err(VerificationFailed)
    ensures "crypto" in bindings ==> r.Ok? && (r.value.verified <==> hmac(secret, orderId + "|" + paymentId) == signature)
  {
    if "crypto" !in bindings then Err(VerificationFailed)
    else if hmac(secret, orderId + "|" + paymentId) == signature then Ok(Verification(true, ""))
    else Ok(Verification(false, InvalidSignature))
  }

  /** `verifyPayment` as the file is written: `crypto` is never imported, so every call fails. */
  function VerifyPaymentAsWritten(hmac: (string, string) -> string, secret: string,
                                  paymentId: string, orderId: string, signature: string): (r: Result<Verification>)
    ensures r == Err(VerificationFailed)
  {
    VerifyPaymentIn(ServiceBindings, hmac, secret, paymentId, orderId, signature)
  }

  /** `verifyPayment` with `crypto` imported, as evidently intended; the rest of the model uses this. It
      never throws and accepts exactly the genuine signature. */
  function VerifyPayment(hmac: (string, string) -> string, secret: string,
                         paymentId: string, orderId: string, signature: string): (r: Result<Verification>)
    ensures r.Ok?
    ensures r.value.verified <==> signature == hmac(secret, orderId + "|" + paymentId)
  {
    assert "crypto" in ServiceBindings + {"crypto"};
    VerifyPaymentIn(ServiceBindings + {"crypto"}, hmac, secret, paymentId, orderId, signature)
  }

  /** The genuine signature of a payment: refused with an error as written, accepted once corrected. */
  lemma AsWrittenRejectsGenuineSignature(hmac: (string, string) -> string, secret: string, paymentId: string, orderId: string)
    ensures VerifyPaymentAsWritten(hmac, secret, paymentId, orderId, hmac(secret, orderId + "|" + paymentId)) == Err(VerificationFailed)
    ensures VerifyPayment(hmac, secret, paymentId, orderId, hmac(secret, orderId + "|" + paymentId)).value.verified
  {
  }

  /** `if (!order.paymentDetails) order.paymentDetails = {}`: the sub-document, created with its defaults. */
  function DetailsOf(o: Order): PaymentDetails
  {
    if o.paymentDetails.Some? then o.paymentDetails.value else EmptyPaymentDetails
  }

  /** The record `processSuccessfulPayment` saves. The `amount` it assigns is not a path of the
      payment-details schema, so it is not stored. */
  function WithPaymentSuccess(o: Order, paymentId: string, now: int): (r: Order)
    ensures r.id == o.id && r.userId == o.userId && r.status == o.status && r.statusHistory == o.statusHistory
    ensures PaymentFlagsOf(r).isPaid && r.paymentMethod == "Razorpay"
    ensures r.paymentDetails.Some? && r.paymentDetails.value.razorpayPaymentId == Some(paymentId)
    ensures r.paymentDetails.value.paidAt == Some(now)
    ensures r.paymentDetails.value.failedAt == DetailsOf(o).failedAt
    ensures r.paymentDetails.value.refundedAt == DetailsOf(o).refundedAt
    ensures Conforms(o) ==> Conforms(r)
  {
    o.(paymentStatus := "Paid", paymentMethod := "Razorpay",
       paymentDetails := Some(DetailsOf(o).(razorpayPaymentId := Some(paymentId), paidAt := Some(now))))
  }

  /** The record `processFailedPayment` saves, whatever the payment status was before. */
  function WithPaymentFailure(o: Order, paymentId: string, errorCode: Option<string>, errorDescription: Option<string>, now: int): (r: Order)
    ensures r.id == o.id && r.userId == o.userId && r.paymentMethod == o.paymentMethod
    ensures PaymentFlagsOf(r).isPaymentFailed && !PaymentFlagsOf(r).isPaid
    ensures r.paymentDetails.Some? && r.paymentDetails.value.razorpayPaymentId == Some(paymentId)
    ensures r.paymentDetails.value.failedAt == Some(now)
    ensures r.paymentDetails.value.errorCode == errorCode && r.paymentDetails.value.errorDescription == errorDescription
    ensures r.paymentDetails.value.paidAt == DetailsOf(o).paidAt
    ensures Conforms(o) ==> Conforms(r)
  {
    o.(paymentStatus := "Failed",
       paymentDetails := Some(DetailsOf(o).(razorpayPaymentId := Some(paymentId), failedAt := Some(now),
                                            errorCode := errorCode, errorDescription := errorDescription)))
  }

  /** The record `processRefund` saves once the gateway granted refund `refundId`. */
  function WithRefund(o: Order, refundId: string, amount: real, reason: string, now: int): (r: Order)
    ensures r.id == o.id && r.userId == o.userId && r.paymentMethod == o.paymentMethod
    ensures r.paymentStatus == "Refunded"
    ensures r.paymentDetails.Some? && r.paymentDetails.value.refundId == Some(refundId)
    ensures r.paymentDetails.value.refundedAt == Some(now) && r.paymentDetails.value.refundAmount == Some(amount)
    ensures r.paymentDetails.value.refundReason == Some(reason)
    ensures r.paymentDetails.value.razorpayPaymentId == DetailsOf(o).razorpayPaymentId
    ensures Conforms(o) ==> Conforms(r)
  {
    o.(paymentStatus := "Refunded",
       paymentDetails := Some(DetailsOf(o).(refundId := Some(refundId), refundedAt := Some(now),
                                            refundAmount := Some(amount), refundReason := Some(reason))))
  }

  /** The record the 'refund.processed' webhook saves: the gateway's amount is in paise; no reason is set. */
  function WithWebhookRefund(o: Order, refundId: string, paise: real, now: int): (r: Order)
    ensures r.id == o.id && r.userId == o.userId
    ensures r.paymentStatus == "Refunded"
    ensures r.paymentDetails.Some? && r.paymentDetails.value.refundId == Some(refundId)
    ensures r.paymentDetails.value.refundedAt == Some(now)
    ensures r.paymentDetails.value.refundAmount.Some? && r.paymentDetails.value.refundAmount.value * 100.0 == paise
    ensures r.paymentDetails.value.refundReason == DetailsOf(o).refundReason
    ensures Conforms(o) ==> Conforms(r)
  {
    o.(paymentStatus := "Refunded",
       paymentDetails := Some(DetailsOf(o).(refundId := Some(refundId), refundedAt := Some(now),
                                            refundAmount := Some(ParseAmount(paise)))))
  }

  /** Recording a success twice is recording it once at the later time: `paidAt` is stamped anew, so
      the second call changes the record whenever the clock moved. */
  lemma SuccessRestampsPaidAt(o: Order, paymentId: string, t1: int, t2: int)
    ensures WithPaymentSuccess(WithPaymentSuccess(o, paymentId, t1), paymentId, t2) == WithPaymentSuccess(o, paymentId, t2)
    ensures t1 != t2 ==>
      WithPaymentSuccess(WithPaymentSuccess(o, paymentId, t1), paymentId, t2) != WithPaymentSuccess(o, paymentId, t1)
  {
    var once := WithPaymentSuccess(o, paymentId, t1);
    assert DetailsOf(once) == DetailsOf(o).(razorpayPaymentId := Some(paymentId), paidAt := Some(t1));
    if t1 != t2 {
      assert WithPaymentSuccess(once, paymentId, t2).paymentDetails.value.paidAt == Some(t2);
    }
  }

  /** A failure recorded after a success turns the order from Paid to Failed and keeps the old
      `paidAt`, so the record shows both. */
  lemma FailureDowngradesPaid(o: Order, paymentId: string, t1: int, failedId: string, code: Option<string>,
                              description: Option<string>, t2: int)
    ensures var r := WithPaymentFailure(WithPaymentSuccess(o, paymentId, t1), failedId, code, description, t2);
      r.paymentStatus == "Failed" && r.paymentDetails.value.paidAt == Some(t1) && r.paymentDetails.value.failedAt == Some(t2)
  {
    var paid := WithPaymentSuccess(o, paymentId, t1);
    assert DetailsOf(paid).paidAt == Some(t1);
  }

  /** The collection after `r` was saved, unchanged when `r` is an error or nothing was written. */
  function Applied(orders: map<string, Order>, r: Result<Option<Order>>): map<string, Order>
  {
    if r.Ok? && r.value.Some? then orders[r.value.value.id := r.value.value] else orders
  }

  /** The notification sent for the record `r` wrote, if the handler sends one. */
  function Announced(hub: Hub, r: Result<Option<Order>>, status: Option<string>, now: int): seq<Emission>
    reads hub`initialized, hub`rooms
  {
    if r.Ok? && r.value.Some? && status.Some? then hub.StatusEmissions(r.value.value.userId, r.value.value, status.value, now)
    else []
  }

  /** A direct update's outcome seen as a handler's: the record it wrote, or its error. */
  function Written(r: Result<Order>): Result<Option<Order>>
  {
    if r.Ok? then Ok(Some(r.value)) else Err(r.message)
  }

  /** `processSuccessfulPayment`. */
  method ProcessSuccessfulPayment(store: OrderStore, hub: Hub, paymentId: string, orderId: string, amount: real, now: int)
    returns (r: Result<Order>)
    requires store.Valid()
    modifies store, hub`sent
    ensures store.Valid()
    ensures orderId !in old(store.orders) ==> r == Err(OrderNotFound)
    ensures orderId in old(store.orders) ==> r == Ok(WithPaymentSuccess(old(store.orders)[orderId], paymentId, now))
    ensures store.orders == Applied(old(store.orders), Written(r))
    ensures hub.sent == old(hub.sent) + Announced(hub, Written(r), Some("Payment Successful"), now)
  {
    var found := store.Find(orderId);
    if found.None? {
      return Err(OrderNotFound);
    }
    var doc := new OrderDoc.Load(found.value);
    doc.SetPaymentStatus("Paid");
    doc.SetPaymentMethod("Razorpay");
    var details := DetailsOf(doc.rec);
    doc.SetPaymentDetails(details.(razorpayPaymentId := Some(paymentId), paidAt := Some(now)));
    assert doc.rec == WithPaymentSuccess(found.value, paymentId, now);
    r := store.Save(doc, now);
    hub.NotifyOwner(r.value.userId, r.value, "Payment Successful", now);
  }

  /** `processFailedPayment`. */
  method ProcessFailedPayment(store: OrderStore, hub: Hub, paymentId: string, orderId: string,
                              errorCode: Option<string>, errorDescription: Option<string>, now: int)
    returns (r: Result<Order>)
    requires store.Valid()
    modifies store, hub`sent
    ensures store.Valid()
    ensures orderId !in old(store.orders) ==> r == Err(OrderNotFound)
    ensures orderId in old(store.orders) ==>
      r == Ok(WithPaymentFailure(old(store.orders)[orderId], paymentId, errorCode, errorDescription, now))
    ensures store.orders == Applied(old(store.orders), Written(r))
    ensures hub.sent == old(hub.sent) + Announced(hub, Written(r), Some("Payment Failed"), now)
  {
    var found := store.Find(orderId);
    if found.None? {
      return Err(OrderNotFound);
    }
    var doc := new OrderDoc.Load(found.value);
    doc.SetPaymentStatus("Failed");
    var details := DetailsOf(doc.rec);
    doc.SetPaymentDetails(details.(razorpayPaymentId := Some(paymentId), failedAt := Some(now),
                                   errorCode := errorCode, errorDescription := errorDescription));
    assert doc.rec == WithPaymentFailure(found.value, paymentId, errorCode, errorDescription, now);
    r := store.Save(doc, now);
    hub.NotifyOwner(r.value.userId, r.value, "Payment Failed", now);
  }

  /** The options sent to `razorpay.payments.refund`. */
  datatype RefundRequest = RefundRequest(paymentId: string, amount: int, reason: string, orderId: string)

  /** The reason given, or the parameter default 'Customer request'. */
  function ReasonOf(reason: Option<string>): string
  {
    if reason.Some? then reason.value else DefaultRefundReason
  }

  /** `processRefund`: the gateway is asked first; its error is rethrown with the order untouched. */
  method ProcessRefund(store: OrderStore, hub: Hub, paymentId: string, orderId: string, amount: real,
                       reason: Option<string>, now: int, gateway: RefundRequest -> Result<string>)
    returns (r: Result<Order>)
    requires store.Valid()
    modifies store, hub`sent
    ensures store.Valid()
    ensures orderId !in old(store.orders) ==> r == Err(OrderNotFound)
    ensures orderId in old(store.orders) ==>
      var refund := gateway(RefundRequest(paymentId, FormatAmount(amount), ReasonOf(reason), orderId));
      (refund.Err? ==> r == Err(refund.message)) &&
      (refund.Ok? ==> r == Ok(WithRefund(old(store.orders)[orderId], refund.value, amount, ReasonOf(reason), now)))
    ensures store.orders == Applied(old(store.orders), Written(r))
    ensures hub.sent == old(hub.sent) + Announced(hub, Written(r), Some("Payment Refunded"), now)
  {
    var found := store.Find(orderId);
    if found.None? {
      return Err(OrderNotFound);
    }
    var refund := gateway(RefundRequest(paymentId, FormatAmount(amount), ReasonOf(reason), orderId));
    if refund.Err? {
      return Err(refund.message);
    }
    var doc := new OrderDoc.Load(found.value);
    doc.SetPaymentStatus("Refunded");
    var details := DetailsOf(doc.rec);
    doc.SetPaymentDetails(details.(refundId := Some(refund.value), refundedAt := Some(now),
                                   refundAmount := Some(amount), refundReason := Some(ReasonOf(reason))));
    assert doc.rec == WithRefund(found.value, refund.value, amount, ReasonOf(reason), now);
    r := store.Save(doc, now);
    hub.NotifyOwner(r.value.userId, r.value, "Payment Refunded", now);
  }

  /** The parts of a webhook event the handlers read; `""` stands for an absent `notes.orderId`. */
  datatype PaymentEntity = PaymentEntity(id: string, amount: real, orderId: string,
                                         errorCode: Option<string>, errorDescription: Option<string>)
  datatype RefundEntity = RefundEntity(id: string, amount: real, orderId: string)
  datatype WebhookEvent = WebhookEvent(event: string, payment: PaymentEntity, refund: RefundEntity)

  datatype Handler = OnCaptured | OnFailed | OnRefundProcessed | Unhandled

  /** The `switch` on the event type. */
  function HandlerFor(eventType: string): (h: Handler)
    ensures h == OnCaptured <==> eventType == "payment.captured"
    ensures h == OnFailed <==> eventType == "payment.failed"
    ensures h == OnRefundProcessed <==> eventType == "refund.processed"
  {
    if eventType == "payment.captured" then OnCaptured
    else if eventType == "payment.failed" then OnFailed
    else if eventType == "refund.processed" then OnRefundProcessed
    else Unhandled
  }

  /** What 'payment.captured' does: nothing without an order id, else `processSuccessfulPayment`. */
  function CapturedChange(orders: map<string, Order>, p: PaymentEntity, now: int): Result<Option<Order>>
  {
    if p.orderId == "" then Ok(None)
    else if p.orderId in orders then Ok(Some(WithPaymentSuccess(orders[p.orderId], p.id, now)))
    else Err(OrderNotFound)
  }

  /** What 'payment.failed' does: nothing without an order id, else `processFailedPayment`. */
  function FailedChange(orders: map<string, Order>, p: PaymentEntity, now: int): Result<Option<Order>>
  {
    if p.orderId == "" then Ok(None)
    else if p.orderId in orders then Ok(Some(WithPaymentFailure(orders[p.orderId], p.id, p.errorCode, p.errorDescription, now)))
    else Err(OrderNotFound)
  }

  /** What 'refund.processed' does: nothing without an order id or without the order, else the refund. */
  function RefundChange(orders: map<string, Order>, rf: RefundEntity, now: int): Result<Option<Order>>
  {
    if rf.orderId != "" && rf.orderId in orders then Ok(Some(WithWebhookRefund(orders[rf.orderId], rf.id, rf.amount, now)))
    else Ok(None)
  }

  /** What a verified event does to the collection: the record it writes, or the error a handler throws. */
  function WebhookChange(orders: map<string, Order>, e: WebhookEvent, now: int): Result<Option<Order>>
  {
    match HandlerFor(e.event)
    case OnCaptured => CapturedChange(orders, e.payment, now)
    case OnFailed => FailedChange(orders, e.payment, now)
    case OnRefundProcessed => RefundChange(orders, e.refund, now)
    case Unhandled => Ok(None)
  }

  /** The status a handler notifies the owner with. */
  function WebhookNotice(e: WebhookEvent): Option<string>
  {
    match HandlerFor(e.event)
    case OnCaptured => Some("Payment Successful")
    case OnFailed => Some("Payment Failed")
    case _ => None
  }

  /** A 'refund.processed' event and an event of any other type never make the webhook fail. */
  lemma OnlyPaymentEventsFail(orders: map<string, Order>, e: WebhookEvent, now: int)
    ensures WebhookChange(orders, e, now).Err? ==>
      (e.event == "payment.captured" || e.event == "payment.failed") && e.payment.orderId != "" && e.payment.orderId !in orders
  {
  }

  /** A verified 'payment.captured' followed by a verified 'payment.failed' for the same order leaves
      it Failed, with the capture time still recorded as `paidAt`. */
  lemma CapturedThenFailed(orders: map<string, Order>, captured: WebhookEvent, failed: WebhookEvent, t1: int, t2: int)
    requires captured.event == "payment.captured" && failed.event == "payment.failed"
    requires captured.payment.orderId == failed.payment.orderId != "" && captured.payment.orderId in orders
    requires orders[captured.payment.orderId].id == captured.payment.orderId
    ensures var after := Applied(orders, WebhookChange(orders, captured, t1));
      var second := WebhookChange(after, failed, t2);
      second.Ok? && second.value.Some? && second.value.value.paymentStatus == "Failed" &&
      second.value.value.paymentDetails.value.paidAt == Some(t1)
  {
    var id := captured.payment.orderId;
    var paid := WithPaymentSuccess(orders[id], captured.payment.id, t1);
    assert WebhookChange(orders, captured, t1) == Ok(Some(paid));
    var after := Applied(orders, WebhookChange(orders, captured, t1));
    assert after[id] == paid;
    FailureDowngradesPaid(orders[id], captured.payment.id, t1, failed.payment.id, failed.payment.errorCode,
                          failed.payment.errorDescription, t2);
  }

  /** `handlePaymentCaptured`. */
  method HandlePaymentCaptured(store: OrderStore, hub: Hub, p: PaymentEntity, now: int) returns (r: Result<Option<Order>>)
    requires store.Valid()
    modifies store, hub`sent
    ensures store.Valid()
    ensures r == CapturedChange(old(store.orders), p, now)
    ensures store.orders == Applied(old(store.orders), r)
    ensures hub.sent == old(hub.sent) + Announced(hub, r, Some("Payment Successful"), now)
  {
    if p.orderId == "" {
      return Ok(None);
    }
    var saved := ProcessSuccessfulPayment(store, hub, p.id, p.orderId, p.amount, now);
    r := Written(saved);
  }

  /** `handlePaymentFailed`. */
  method HandlePaymentFailed(store: OrderStore, hub: Hub, p: PaymentEntity, now: int) returns (r: Result<Option<Order>>)
    requires store.Valid()
    modifies store, hub`sent
    ensures store.Valid()
    ensures r == FailedChange(old(store.orders), p, now)
    ensures store.orders == Applied(old(store.orders), r)
    ensures hub.sent == old(hub.sent) + Announced(hub, r, Some("Payment Failed"), now)
  {
    if p.orderId == "" {
      return Ok(None);
    }
    var saved := ProcessFailedPayment(store, hub, p.id, p.orderId, p.errorCode, p.errorDescription, now);
    r := Written(saved);
  }

  /** `handleRefundProcessed`: a missing order is skipped silently and nobody is notified. */
  method HandleRefundProcessed(store: OrderStore, rf: RefundEntity, now: int) returns (r: Result<Option<Order>>)
    requires store.Valid()
    modifies store
    ensures store.Valid()
    ensures r == RefundChange(old(store.orders), rf, now)
    ensures store.orders == Applied(old(store.orders), r)
  {
    if rf.orderId == "" {
      return Ok(None);
    }
    var found := store.Find(rf.orderId);
    if found.None? {
      return Ok(None);
    }
    var doc := new OrderDoc.Load(found.value);
    doc.SetPaymentStatus("Refunded");
    var details := DetailsOf(doc.rec);
    doc.SetPaymentDetails(details.(refundId := Some(rf.id), refundedAt := Some(now),
                                   refundAmount := Some(ParseAmount(rf.amount))));
    assert doc.rec == WithWebhookRefund(found.value, rf.id, rf.amount, now);
    var saved := store.Save(doc, now);
    r := Ok(Some(saved.value));
  }

  /** `handleWebhookEvent`: the signature over `body` is checked before anything is read or written;
      then the event is dispatched on its type, and a handler's error is rethrown. */
  method HandleWebhookEvent(store: OrderStore, hub: Hub, hmac: (string, string) -> string, secret: string,
                            e: WebhookEvent, signature: string, body: string, now: int) returns (r: Result<string>)
    requires store.Valid()
    modifies store, hub`sent
    ensures store.Valid()
    ensures !VerifyWebhookSignature(hmac, secret, body, signature) ==>
      r == Err(InvalidWebhookSignature) && store.orders == old(store.orders) && hub.sent == old(hub.sent)
    ensures VerifyWebhookSignature(hmac, secret, body, signature) ==>
      var change := WebhookChange(old(store.orders), e, now);
      (change.Err? ==> r == Err(change.message)) && (change.Ok? ==> r == Ok(WebhookProcessed)) &&
      store.orders == Applied(old(store.orders), change) &&
      hub.sent == old(hub.sent) + Announced(hub, change, WebhookNotice(e), now)
  {
    if !VerifyWebhookSignature(hmac, secret, body, signature) {
      return Err(InvalidWebhookSignature);
    }
    var change: Result<Option<Order>>;
    match HandlerFor(e.event) {
      case OnCaptured =>
        change := HandlePaymentCaptured(store, hub, e.payment, now);
      case OnFailed =>
        change := HandlePaymentFailed(store, hub, e.payment, now);
      case OnRefundProcessed =>
        change := HandleRefundProcessed(store, e.refund, now);
      case Unhandled =>
        change := Ok(None);
    }
    if change.Err? {
      return Err(change.message);
    }
    r := Ok(WebhookProcessed);
  }
}
