# Og-house ordering core in Dafny

A model of the ordering core of Og-house, a restaurant's online food-ordering system. The back end is an
Express server over MongoDB; the front end is a React single-page app. The model covers the parts that
keep records and make decisions:

- **Orders**: the order record with its status, payment-status and order-type enumerations, the
  pre-save hook that appends to the append-only status history, and the duration and payment virtuals
  (`order_model.dfy`). On top of it sit the order endpoints: an order from a request body or from the
  caller's cart, the tracking view with its ownership check, the admin's status update and delivery
  confirmation (`order_controller.dfy`). The tracking service's own status update, delivery
  confirmation and tracking metrics follow (`order_tracking_service.dfy`).
- **Payments**: rupee/paise conversion, the webhook signature check and the receipt id
  (`razorpay.dfy`). The payment service creates gateway orders, checks client signatures, and records
  success, failure and refunds, directly or through the webhook dispatch (`payment_service.dfy`). The
  payment endpoints put guard chains in front of it (`payment_controller.dfy`).
- **Cart**: the per-user cart with its pre-save total and `itemCount` (`cart_model.dfy`), the cart
  endpoints (`cart_controller.dfy`), the cart middleware with its per-item and per-cart limits
  (`cart_validation.dfy`) and the order-total middleware (`calculate_total_amount.dfy`). The food
  catalog is read through `food_catalog.dfy`.
- **Notifications and e-mail**: the Socket.IO rooms, the status-message table and the two notifiers
  that swallow every error (`notification_service.dfy`). The SMTP configuration check, the cached
  transporter, the recipient list and the item rows of the admin e-mail are in `email_service.dfy`.
- **Accounts**: registration, login and `sanitizeUser` (`auth_controller.dfy`), and the admin's role
  update and dashboard growth arithmetic (`admin_controller.dfy`).
- **Front end**: the menu's response-shape extraction (`menu_data.dfy`), the filter and sort pipeline
  (`menu_grid.dfy`) and the featured dishes (`featured_menu.dfy`). Also modelled: the checkout form
  (`checkout_form.dfy`), the cart sheet (`cart_sheet.dfy`), the authentication hook
  (`auth_hook.dfy`), and the login and registration forms (`login_form.dfy`, `register_form.dfy`).
- Shared helpers (`common.dfy`): JavaScript's whitespace, `trim`, `split`, ASCII `toLowerCase`, number
  parsing and `Math.round`.

How the model is built:

- **Money** is an exact `real` in rupees. Paise are `int`. `Math.round(x)` is `Floor(x + 1/2)`.
- **The clock** is a parameter `now`, an integer count of milliseconds, fixed for one request.
- **Mongoose documents** that the code edits field by field are classes (`OrderDoc`, `CartDoc`). They
  are loaded from, and saved into, collection classes that hold a `map` from id to record
  (`OrderStore`, `CartStore`). Saving runs the schema validation and the pre-save hook. The user
  collection is a sequence of documents in insertion order.
- **Mutable front-end state** is a class whose methods replace its fields (`CartSheet.Sheet`,
  `LoginForm.LoginForm`).
- **Pure decisions** are functions. Every endpoint's answer is a status code and a body, or an `Err`
  carrying the message the source throws.
- **What the code cannot see** is a parameter:
  - HMAC-SHA256, as `hmac(key, text)` returning the hex digest;
  - bcrypt, as `hash` and `compare`, and jwt, as `sign`;
  - the Razorpay SDK's order creation and refund, as gateway results;
  - database failures, as `saveFails` or a lookup error;
  - SMTP errors, and the outcome of each front-end request.
- **Strings**: `""` stands for an absent or falsy request field, because every guard in the source
  tests truthiness. `Option` is used where undefined and falsy behave differently.

## Model

| member | source | states |
|---|---|---|
| OrderModel.MayAccess | backend/controllers/paymentController.js:20 | the ownership check: an order without an owner is open only to admins, and a non-admin is let at an order only when it is their own (also backend/controllers/orderController.js:148) |
| OrderModel.PopulatedCheckAdminsOnly | backend/controllers/orderController.js:138-150 | after `populate`, the owner test compares a printed user document, which starts with a brace, with an id, which does not, so only admins pass (also backend/services/orderTrackingService.js:53-65) |
| OrderModel.AfterHook | backend/models/orderModel.js:175-184 | when `status` was modified the hook appends exactly one entry (current status, save time, admin notes), otherwise the record is untouched; no other field ever changes |
| OrderModel.ConformsAfterHook | backend/models/orderModel.js:175-184 | the hook's entry uses a status the record already had, so the record passes the schema after the hook iff it did before (also lines 4-9, 137-141) |
| OrderModel.MinutesSince | backend/models/orderModel.js:191-192 | the floor of the elapsed milliseconds over 60000: m whole minutes with m·60000 ≤ elapsed < (m+1)·60000 |
| OrderModel.MinutesSinceMonotone | backend/models/orderModel.js:187-206 | an earlier timestamp is never fewer minutes ago than a later one |
| OrderModel.StatusDuration | backend/models/orderModel.js:187-195 | 0 for an empty history, else the whole minutes since the last entry's timestamp |
| OrderModel.TotalDuration | backend/models/orderModel.js:198-206 | 0 for an empty history, else the whole minutes since the first entry's timestamp |
| OrderModel.TotalDurationCoversStatusDuration | backend/models/orderModel.js:187-206 | with timestamps in order, the total duration is at least the current status's duration |
| OrderModel.AfterHookKeepsTimeOrder | backend/models/orderModel.js:175-184 | the hook's entry is stamped with the save time, so a history in time order stays in time order |
| OrderModel.PaymentFlagsOf | backend/models/orderModel.js:209-219 | `isPaid`, `isPaymentPending` and `isPaymentFailed` hold exactly when the payment status is Paid, Pending and Failed |
| OrderModel.PaymentFlagsExclusive | backend/models/orderModel.js:209-219 | at most one flag holds; on a record that passes the schema none holds exactly when the status is Refunded (also lines 153-157) |
| OrderModel.OrderDoc.Load | backend/models/orderModel.js:175-176 | a loaded document holds the stored record with no path modified |
| OrderModel.OrderDoc.Create | backend/models/orderModel.js:137-141 | a new document holds the given record; `status` counts as modified iff it was given explicitly (also lines 175-176) |
| OrderModel.OrderDoc.SetStatus | backend/models/orderModel.js:137-141 | assigning a status changes only `status`, and marks it modified when the value changes or the document is new (also line 176) |
| OrderModel.OrderDoc.PushHistory | backend/models/orderModel.js:142 | appends one entry to the history and changes nothing else |
| OrderModel.OrderStore.Save | backend/models/orderModel.js:101-184 | a record failing the schema (required paths, enums, quantity ≥ 1) is refused and nothing changes; otherwise the hook runs and the hooked record is written under its id, with modification tracking reset |
| OrderModel.OrderStore.Find | backend/models/orderModel.js:101-172 | finds the stored record with that id iff there is one, and every stored record passes the schema |
| OrderModel.OrderDoc.SetAdminNotes | backend/controllers/orderController.js:195 | assigning the admin notes changes only `adminNotes` |
| OrderModel.OrderDoc.SetDeliveryDetails | backend/controllers/orderController.js:196-198 | assigning into the delivery details changes only `deliveryDetails` |
| OrderModel.OrderDoc.SetPaymentDetails | backend/services/paymentService.js:77-82 | assigning the payment details changes only `paymentDetails` |
| OrderModel.OrderDoc.SetPaymentStatus | backend/services/paymentService.js:73 | assigning the payment status changes only `paymentStatus` |
| OrderModel.OrderDoc.SetPaymentMethod | backend/services/paymentService.js:74 | assigning the payment method changes only `paymentMethod` |
| OrderModel.OrderStore.constructor | backend/models/orderModel.js:225-226 | the collection starts empty and valid |
| FoodCatalog.FindById | backend/models/cartModel.js:38 | `Food.findById` finds the stored food, finds nothing, or throws, and throws exactly for the ids whose lookup fails |
| CartModel.FindIndex | backend/controllers/cartController.js:53-55 | the position of the first entry for that food, or -1 exactly when no entry has it |
| CartModel.ItemCountAppend | backend/models/cartModel.js:55-57 | the `itemCount` sum over a concatenation is the sum of the two counts |
| CartModel.ItemCount | backend/models/cartModel.js:55-57 | the `itemCount` virtual, the sum of the quantities; each entry holds at least one unit, so a cart passing the schema counts at least as many units as entries |
| CartModel.PricedTotalAppend | backend/models/cartModel.js:37-42 | the hook's sum over a concatenation is the sum of the two sums |
| CartModel.PricedTotalSwap | backend/models/cartModel.js:37-42 | the hook's sum does not depend on the order of the entries |
| CartModel.PricedTotal | backend/models/cartModel.js:37-42 | the total the hook accumulates adds price × quantity only for entries whose food is found, so a cart whose foods are all gone totals 0 |
| CartModel.SavedTotal | backend/models/cartModel.js:31-52 | the `totalAmount` the hook leaves: the priced total when no lookup throws (0 for an empty cart), the previous total when one throws |
| CartModel.CartDoc.Load | backend/models/cartModel.js:16-28 | a loaded document holds the stored user, items and total |
| CartModel.CartDoc.Create | backend/models/cartModel.js:24-27 | a new document starts with `totalAmount` at its default 0 |
| CartModel.CartDoc.AddQuantity | backend/controllers/cartController.js:59 | adds to exactly one entry's quantity |
| CartModel.CartDoc.SetQuantity | backend/controllers/cartController.js:106 | sets exactly one entry's quantity |
| CartModel.CartDoc.Push | backend/controllers/cartController.js:62 | appends one entry |
| CartModel.CartDoc.Splice | backend/controllers/cartController.js:140 | removes exactly the entry at that position and keeps the others in order |
| CartModel.CartDoc.ClearItems | backend/controllers/cartController.js:164 | leaves no entries |
| CartModel.CartDoc.SetTotalAmount | backend/controllers/orderController.js:94 | sets the stored total |
| CartModel.CartDoc.PreSave | backend/models/cartModel.js:31-52 | the loop leaves 0 for an empty cart, the previous total when a lookup throws, and otherwise Σ price × quantity over the entries whose food exists |
| CartModel.CartStore.FindByUser | backend/models/cartModel.js:17-22 | finds the user's cart iff one is stored, and every stored cart passes the schema |
| CartModel.CartStore.Save | backend/models/cartModel.js:3-52 | a cart failing the schema is refused; inserting a second cart for a user fails on the unique index; otherwise the hooked cart is written under its user |
| FoodCatalog.Populated | backend/controllers/cartController.js:8 | `populate` fills in the stored food for an id that exists, and null otherwise |
| CartModel.CartStore.constructor | backend/models/cartModel.js:63-64 | the collection starts empty, so at most one cart per user |
| NotificationService.UserRoom | backend/services/notificationService.js:24 | the room is the prefix `user-` followed by the user id, which can be read back from the room (also line 130) |
| NotificationService.UserRoomsSeparate | backend/services/notificationService.js:18 | distinct user ids name distinct rooms, and no user room is the admin room (also lines 24, 130) |
| NotificationService.StatusMessage | backend/services/notificationService.js:110-118 | the five tabled statuses get a message of their own beginning "Your order"; every other status gets "Order status updated to " followed by the status |
| NotificationService.MessageFirstChar | backend/services/notificationService.js:110-118 | tabled messages and generic messages are told apart by their first character |
| NotificationService.StatusMessageDeterminesStatus | backend/services/notificationService.js:110-118 | two statuses with the same message are the same status |
| NotificationService.GenericStatuses | backend/services/notificationService.js:110-118 | Pending, Ready for Pickup and Completed get the generic text |
| NotificationService.NewOrderPayload | backend/services/notificationService.js:60-72 | the admin payload carries the order's id, customer name, total, status and items |
| NotificationService.StatusUpdatePayload | backend/services/notificationService.js:120-126 | the user payload carries the order id and the new status |
| NotificationService.Hub.constructor | backend/services/notificationService.js:3 | the server starts uninitialised, with no rooms and nothing sent |
| NotificationService.Hub.InitializeSocket | backend/services/notificationService.js:5-34 | after initialisation the server is available |
| NotificationService.Hub.GetIO | backend/services/notificationService.js:36-41 | the server when it was initialised, else the error "Socket.IO not initialized. Call initializeSocket first." |
| NotificationService.Hub.JoinAdmin | backend/services/notificationService.js:17-20 | any socket joins the admin room, with no check |
| NotificationService.Hub.JoinUser | backend/services/notificationService.js:23-26 | a socket joins the room of whatever user id it sends |
| NotificationService.Hub.AdminEmissions | backend/services/notificationService.js:54 | one emission to the admin room when the server is up, none otherwise (also line 76) |
| NotificationService.Hub.NotifyAdminNewOrder | backend/services/notificationService.js:44-91 | sends one 'new-order' emission to the admin room's members; before initialisation the error is swallowed and nothing is sent |
| NotificationService.Hub.NotifyUserOrderStatusChange | backend/services/notificationService.js:94-145 | sends one 'order-status-update' emission to the user's room; before initialisation the error is swallowed and nothing is sent |
| NotificationService.Hub.StatusEmissions | backend/controllers/orderController.js:213-215 | an emission goes out iff the order has an owner and the server is up, and it goes to the owner's room |
| NotificationService.Hub.NotifyOwner | backend/controllers/orderController.js:213-215 | the owner is notified only when the order has one |
| NotificationService.Hub.NotifyUserOrderAccepted | backend/services/notificationService.js:148-150 | the generic notifier with status Accepted |
| NotificationService.Hub.NotifyUserOrderCompleted | backend/services/notificationService.js:153-155 | the generic notifier with status Completed |
| NotificationService.Hub.NotifyUserOrderOnTheWay | backend/services/notificationService.js:158-160 | the generic notifier with status On The Way |
| EmailService.IsEmailConfigured | backend/services/emailService.js:6-14 | configured means all five SMTP variables are set, so a transporter built from them has a host, a user and a password |
| EmailService.SmtpPort | backend/services/emailService.js:40 | for a variable spelled with unsigned decimal digits (and surrounding whitespace): the number it spells, or 587 when that is 0 or not a number; other spellings are listed under Left out |
| EmailService.SmtpPortAsWritten | backend/services/emailService.js:40 | a positive port written in decimal is used as written |
| EmailService.SmtpPortOfNumber | backend/services/emailService.js:40 | a trimmed string of decimal digits spelling n > 0 gives port n |
| EmailService.SmtpPortBlank | backend/services/emailService.js:40 | a blank port variable falls back to 587 |
| EmailService.SmtpPortNotANumber | backend/services/emailService.js:40 | a port variable with a character that no spelling `Number` accepts can contain (not whitespace, digit, sign, point, exponent, radix or hex letter, nor a letter of Infinity) falls back to 587 |
| EmailService.Secure | backend/services/emailService.js:41 | `secure` holds iff the variable is "true" in any letter case |
| EmailService.NonEmpty | backend/services/emailService.js:58 | `filter(Boolean)` keeps exactly the non-empty strings, in order (also line 71) |
| EmailService.EnvRecipients | backend/services/emailService.js:68-74 | at most one address per comma-separated piece; a variable without a comma gives its trimmed text, or nothing when it is blank |
| EmailService.EnvRecipientsClean | backend/services/emailService.js:68-71 | every address taken from ADMIN_EMAILS is non-empty, has no surrounding whitespace and no comma |
| EmailService.RecipientIsTrimmedPiece | backend/services/emailService.js:68-71 | every address taken from ADMIN_EMAILS is a trimmed piece of the variable split on commas |
| EmailService.EnvRecipientsComplete | backend/services/emailService.js:68-71 | every piece of ADMIN_EMAILS that is not blank contributes its trimmed text |
| EmailService.AdminRecipientsChoice | backend/services/emailService.js:52-75 | no recipient is empty; when the database lists some non-empty admin address those are the recipients; when the query fails the variable's list is used |
| EmailService.AdminRecipients | backend/services/emailService.js:52-75 | no recipient is empty, and a failed database query falls back to the ADMIN_EMAILS list |
| EmailService.RowFor | backend/services/emailService.js:89-92 | a row's quantity defaults to 1, its price is the populated food's price or 0, and its line total is price × quantity |
| EmailService.Rows | backend/services/emailService.js:87-95 | one row per order line, in order |
| EmailService.RowsAgreeWithOrder | backend/services/emailService.js:87-95 | when every food still exists at the recorded price, the e-mail's line totals add up to the order's line totals |
| EmailService.NextTransporter | backend/services/emailService.js:16-49 | a cached transporter is handed out again unchanged; without one a transporter exists exactly when the SMTP variables are configured |
| EmailService.SendOutcomes | backend/services/emailService.js:130-163 | the send throws exactly when SMTP refuses a message it was asked to send, and the outbox grows by the message sent, if any |
| EmailService.Mailer.constructor | backend/services/emailService.js:4 | no transporter is cached and none was created |
| EmailService.Mailer.GetTransporter | backend/services/emailService.js:16-50 | the cached transporter when there is one; otherwise none when SMTP is not configured, or a new one that is cached from then on; at most one is ever created |
| EmailService.Mailer.SendOrderPlacedEmail | backend/services/emailService.js:130-163 | skipped without a transporter or without recipients; otherwise the message goes to all recipients from FROM_EMAIL, and an SMTP error is rethrown with nothing recorded as sent |
| Razorpay.FormatAmount | backend/config/razorpay.js:26-28 | the paise charged are within half a paisa of amount × 100, halves rounded up |
| Razorpay.ParseAmount | backend/config/razorpay.js:31-33 | the rupees returned times 100 give back the paise |
| Razorpay.ParseFormat | backend/config/razorpay.js:26-33 | a whole number of paise converted to paise and back is unchanged |
| Razorpay.FormatParse | backend/config/razorpay.js:26-33 | any integer number of paise converted to rupees and back is unchanged |
| Razorpay.FormatAmountNearest | backend/config/razorpay.js:26-28 | the conversion gives the nearest whole number of paise, halves rounded up |
| Razorpay.WebhookSignatureUnique | backend/config/razorpay.js:11-18 | a note on the comparison: it is exact string equality with the hex HMAC of the body, so no second spelling (another case, padding) is accepted; one body has exactly one accepted signature |
| Razorpay.GenerateRazorpayOrderId | backend/config/razorpay.js:21-23 | the receipt is "order_", the order id, "_" and the clock in decimal |
| Razorpay.ReceiptIdentifiesOrder | backend/config/razorpay.js:21-23 | the amount does not affect the receipt, and at one instant different order ids give different receipts |
| PaymentService.PaymentRequest | backend/services/paymentService.js:15-27 | the gateway is asked for `formatAmount(amount)` paise, with the receipt id and the local order id in its notes |
| PaymentService.CreatePaymentOrder | backend/services/paymentService.js:13-42 | fails with 'Failed to create payment order' exactly when the gateway fails; otherwise returns the gateway's order id and receipt with the paise requested |
| PaymentService.IntentChargesAmount | backend/services/paymentService.js:16 | for a whole number of paise the intent charges exactly the order amount (also line 34) |
| PaymentService.VerifyPaymentIn | backend/services/paymentService.js:45-62 | without a `crypto` module providing `createHmac` in scope the check ends in 'Payment verification failed'; with one it reports verified iff the hex HMAC of the order id and payment id joined by a bar equals the signature (also lines 1-9) |
| PaymentService.VerifyPaymentAsWritten | backend/services/paymentService.js:45-62 | as the file is written, every call ends in 'Payment verification failed' (also lines 1-9) |
| PaymentService.AsWrittenRejectsGenuineSignature | backend/services/paymentService.js:45-62 | the genuine signature ends in 'Payment verification failed' as written, and is accepted by the corrected check (also lines 1-9) |
| PaymentService.VerifyPayment | backend/services/paymentService.js:45-57 | with `crypto` in scope the check never throws and reports verified exactly for the genuine signature |
| PaymentService.WithPaymentSuccess | backend/services/paymentService.js:73-82 | the saved record is Paid by Razorpay with the payment id and `paidAt` = now; `failedAt` and `refundedAt` are kept; a valid record stays valid |
| PaymentService.WithPaymentFailure | backend/services/paymentService.js:111-120 | the saved record is Failed, whatever it was, with the payment id, `failedAt` = now and the error fields; `paidAt` is kept |
| PaymentService.WithRefund | backend/services/paymentService.js:161-170 | the saved record is Refunded with the gateway's refund id, `refundedAt` = now, the amount given and the reason |
| PaymentService.WithWebhookRefund | backend/services/paymentService.js:288-292 | the saved record is Refunded with the refund id, `refundedAt` = now and the paise converted to rupees; the reason is kept |
| PaymentService.SuccessRestampsPaidAt | backend/services/paymentService.js:81 | recording a success twice equals recording it once at the later time, and differs from the first record whenever the clock moved |
| PaymentService.FailureDowngradesPaid | backend/services/paymentService.js:73-81 | a failure after a success leaves the order Failed with both `paidAt` and `failedAt` recorded (also lines 111-118) |
| PaymentService.ProcessSuccessfulPayment | backend/services/paymentService.js:65-100 | 'Order not found' for an unknown order and nothing changes; otherwise the success record is saved and the owner, if any, is notified with 'Payment Successful' |
| PaymentService.ProcessFailedPayment | backend/services/paymentService.js:103-138 | 'Order not found' for an unknown order; otherwise the failure record is saved and the owner notified with 'Payment Failed' |
| PaymentService.ProcessRefund | backend/services/paymentService.js:141-189 | 'Order not found' for an unknown order; the gateway is called first and its error leaves the order untouched; otherwise the refund record is saved and the owner notified with 'Payment Refunded' |
| PaymentService.HandlerFor | backend/services/paymentService.js:226-241 | each of the three event types goes to its own handler, and every other type to none |
| PaymentService.OnlyPaymentEventsFail | backend/services/paymentService.js:223-296 | a verified event fails only when it is a payment event whose order id names no order |
| PaymentService.CapturedThenFailed | backend/services/paymentService.js:251-277 | a capture followed by a failure for the same order leaves it Failed, with the capture time still as `paidAt` |
| PaymentService.HandlePaymentCaptured | backend/services/paymentService.js:251-262 | does nothing without `notes.orderId`, else records the success |
| PaymentService.HandlePaymentFailed | backend/services/paymentService.js:265-277 | does nothing without `notes.orderId`, else records the failure |
| PaymentService.HandleRefundProcessed | backend/services/paymentService.js:280-296 | does nothing without `notes.orderId` or without the order, else records the refund; nobody is notified |
| PaymentService.HandleWebhookEvent | backend/services/paymentService.js:216-248 | a signature mismatch gives 'Invalid webhook signature' before anything is read or written; otherwise the dispatched handler's change is applied and its error rethrown |
| OrderController.OrderLines | backend/controllers/orderController.js:66-71 | one order line per cart entry, in order, with the catalog price and total = price × quantity; None exactly when some entry's food no longer exists |
| OrderController.LinesTotal | backend/controllers/orderController.js:66-71 | the order lines add up to the cart's priced total |
| OrderController.CartOrderTotal | backend/controllers/orderController.js:66-72 | the order's copied `totalAmount` equals the sum of its line totals when the cart was last saved against the same catalog |
| OrderController.CartOrder | backend/controllers/orderController.js:60-87 | the built order belongs to the caller, copies the cart's total, is Pending with exactly one Pending history entry, and falls back to the caller's name and to 'Delivery' |
| OrderController.CartOrderConforms | backend/controllers/orderController.js:60-90 | the built order passes validation iff it has a customer name and a known order type |
| OrderController.CartOrderStartsTwicePending | backend/controllers/orderController.js:81-90 | once saved, a cart order's history holds the controller's Pending entry followed by the hook's |
| OrderController.ClearCart | backend/controllers/orderController.js:93-95 | the caller's cart is saved with no items and a zero total; no other cart changes |
| OrderController.AnnounceOrder | backend/controllers/orderController.js:98-120 | the admin e-mail goes out, and the socket event only when the e-mail did not fail; an e-mail error is swallowed |
| OrderController.CreateOrderFromCart | backend/controllers/orderController.js:36-131 | 400 'Cart is empty' with nothing changed for a missing or empty cart; 500 with nothing changed for a deleted food or an invalid order; otherwise 201, the order saved, the cart emptied after it, then the notifications |
| OrderController.CreateOrder | backend/controllers/orderController.js:6-33 | 201 iff the body passes validation; the saved order is kept and the reply stays 201 whatever the e-mail does, which only decides the socket event |
| OrderController.GetOrderTracking | backend/controllers/orderController.js:134-166 | 404 for an unknown order, 403 unless the caller is an admin or the owner, and otherwise the status, history and estimated time of the stored order, with its whole minutes since the first and since the last history entry at the time of the request |
| OrderController.GetOrderTrackingAsWritten | backend/controllers/orderController.js:134-166 | as written: 404 for an unknown order, and 200 exactly for admins and for callers whose id equals the printed populated user (also line 148) |
| OrderController.AsWrittenTrackingDeniesOwner | backend/controllers/orderController.js:138-150 | as written, the non-admin owner of an order gets 403, where the corrected check answers 200 |
| OrderController.TrackingDurationsOrdered | backend/controllers/orderController.js:152-160 | for a history in time order, the view's total duration is never below its status duration |
| OrderController.StatusEdit | backend/controllers/orderController.js:191-208 | status and notes overwrite only when given; a history entry with the admin and the notes is appended iff the status is given and differs; None iff a delivery field is written to an order without delivery details |
| OrderController.UpdateHistory | backend/controllers/orderController.js:194-210 | a real change leaves two new entries after saving, the controller's and the hook's; anything else leaves history and status unchanged |
| OrderController.StatusEditConforms | backend/controllers/orderController.js:194 | the edit of a valid order saves iff the status given, if any, is one of the eight (also line 210) |
| OrderController.OmittedStatusReportedChanged | backend/controllers/orderController.js:220 | omitting the status reports `statusChanged` although history is unchanged (also lines 194, 201) |
| OrderController.UpdateOrderStatus | backend/controllers/orderController.js:169-226 | 404 with nothing changed for an unknown order; 500 with nothing saved for a missing delivery object or an invalid status; otherwise 200, `statusChanged` = status differs, and the owner notified only on a real change |
| OrderController.DeliveredEdit | backend/controllers/orderController.js:239-249 | the order becomes Delivered with its delivery time and a Delivered entry carrying the notes or the default text; None iff there are no delivery details |
| OrderController.DeliveredHistory | backend/controllers/orderController.js:239-251 | confirming appends one Delivered entry, and a second from the hook when the status changed, keeping the old history as a prefix; a valid order stays valid |
| OrderController.MarkOrderDelivered | backend/controllers/orderController.js:229-266 | 404 for an unknown order and 500 without delivery details, both changing nothing; otherwise 200, the saved order, and the owner always notified with Delivered |
| OrderTrackingService.ServiceStatusEdit | backend/services/orderTrackingService.js:13-29 | the status is assigned and an entry with the admin and the notes pushed on every call; admin notes change only for non-empty notes; nothing else changes |
| OrderTrackingService.ServiceStatusEditConforms | backend/services/orderTrackingService.js:16-31 | the edit of a valid order saves iff the new status is one of the eight |
| OrderTrackingService.ServiceAlwaysAppends | backend/services/orderTrackingService.js:16-24 | a repeated status still adds one entry through the service, while the controller path adds none; a real change adds two (also backend/controllers/orderController.js:201-208) |
| OrderTrackingService.UpdateOrderStatus | backend/services/orderTrackingService.js:6-48 | 'Order not found' before any change for an unknown id; otherwise the edit is saved, `statusChanged` = the status differs, and the owner is notified only then |
| OrderTrackingService.MarkOrderDelivered | backend/services/orderTrackingService.js:197-233 | 'Order not found' for an unknown id, a TypeError without delivery details, both changing nothing; otherwise the controller's delivered edit is saved and the owner always notified |
| OrderTrackingService.IndexOf | backend/services/orderTrackingService.js:106 | the first position of the status on the scale, -1 iff it is absent |
| OrderTrackingService.IndexOnScale | backend/services/orderTrackingService.js:102-106 | each status on the scale is found at its own position |
| OrderTrackingService.Progress | backend/services/orderTrackingService.js:107-108 | the percentage is position / 6 × 100 rounded to the nearest integer |
| OrderTrackingService.ProgressPercentage | backend/services/orderTrackingService.js:102-108 | the progress is a whole percentage within 0..100, and 0 for a status off the scale |
| OrderTrackingService.ProgressOnScale | backend/services/orderTrackingService.js:102-108 | a status on the scale shows its own position's percentage |
| OrderTrackingService.ProgressValues | backend/services/orderTrackingService.js:107-108 | the seven rounded percentages are 0, 17, 33, 50, 67, 83 and 100 |
| OrderTrackingService.ProgressTable | backend/services/orderTrackingService.js:102-108 | Pending through Completed show 0, 17, 33, 50, 67, 83 and 100 percent |
| OrderTrackingService.OffScaleProgress | backend/services/orderTrackingService.js:107-108 | a status off the scale, such as Cancelled, shows 0 percent |
| OrderTrackingService.ProgressBoundedMonotone | backend/services/orderTrackingService.js:102-108 | the percentage lies in [0, 100] and never decreases along the scale |
| OrderTrackingService.CalculateTrackingMetrics | backend/services/orderTrackingService.js:81-120 | status and history copied; durations from the first and last entries; the stored estimate, else now + 30 minutes for Accepted, else none; delivered iff Delivered or Completed, cancelled iff Cancelled |
| OrderTrackingService.MetricsConsistent | backend/services/orderTrackingService.js:86-118 | never both delivered and cancelled; cancelled shows 0 percent and delivered at least 83; with ordered timestamps the total duration is at least the status duration |
| OrderTrackingService.GetOrderTracking | backend/services/orderTrackingService.js:51-78 | 'Order not found', then 'Access denied' unless the caller is an admin or the owner, otherwise the order with its metrics |
| OrderTrackingService.GetOrderTrackingAsWritten | backend/services/orderTrackingService.js:51-78 | as written: 'Order not found', and the order only for admins and for callers whose id equals the printed populated user (also line 63) |
| OrderTrackingService.AsWrittenTrackingDeniesOwner | backend/services/orderTrackingService.js:53-65 | as written, the non-admin owner of an order gets 'Access denied', where the corrected check returns the order |
| OrderTrackingService.StatusProgress | backend/services/orderTrackingService.js:102-108 | a status's progress is within 0 to 100, 0 for Cancelled, and at least 83 for Delivered and Completed |
| PaymentController.InitializePayment | backend/controllers/paymentController.js:6-55 | 404, then 403 unless admin or owner, then 400 for a Paid order; 200 iff all guards pass and the gateway creates the intent for the order's `totalAmount`, whose result is the body |
| PaymentController.InitializeChargesTotal | backend/controllers/paymentController.js:25-34 | a successful initialization is for an unpaid order and charges exactly its total when that is a whole number of paise |
| PaymentController.VerifyPayment | backend/controllers/paymentController.js:58-115 | over the corrected service check (as written every request with all four fields ends in 500, see AsWrittenVerifyAnswers500): 400 for a missing field and for a wrong signature, both before the order is read; 404 for an unknown order; otherwise the success record saved and the owner notified |
| PaymentController.VerifyPaymentAnswerAsWritten | backend/controllers/paymentController.js:58-75 | over the service as written, a request missing a field is answered 400 before the service is called |
| PaymentController.AsWrittenVerifyAnswers500 | backend/controllers/paymentController.js:74-112 | over the service as written, every request that carries the four fields, the genuine one included, lands in the catch and is answered 500 |
| PaymentController.CartPaymentOrder | backend/controllers/paymentController.js:137-160 | the order is in the caller's name and id, copies the cart total, is Pending in both status and payment with one Pending entry, and defaults the address and order type |
| PaymentController.CartPaymentOrderConforms | backend/controllers/paymentController.js:137-163 | the built order saves iff the caller has a name and the order type is known |
| PaymentController.ProcessPaymentFromCart | backend/controllers/paymentController.js:118-197 | 400 for a missing or empty cart; 500 with nothing saved for a deleted food or an invalid order; the order is saved before the gateway call, so a gateway failure leaves it behind with the cart untouched; the cart is emptied only once the intent exists |
| PaymentController.RefundAmount | backend/controllers/paymentController.js:243 | an absent or zero amount refunds the order's total, any other amount is used as given |
| PaymentController.GatewayPaymentId | backend/controllers/paymentController.js:233 | a non-empty id is the one stored in the payment details |
| PaymentController.FailedPaymentRefundable | backend/controllers/paymentController.js:232-240 | a Failed payment that carries a gateway id passes the refund guards; Paid is not required |
| PaymentController.ProcessRefund | backend/controllers/paymentController.js:221-265 | 404, then 400 without a gateway payment id, then 400 for a Refunded order, all changing nothing; a gateway error is 500 with nothing changed; 200 only when the guards pass |
| PaymentController.Selected | backend/controllers/paymentController.js:272-273 | the projection keeps the payment fields and the total, and drops `userId` unless it is selected |
| PaymentController.GetPaymentStatusFrom | backend/controllers/paymentController.js:268-298 | 404 for an unknown order; 200 iff admin or owner as seen through the projection, with the stored payment state; 403 otherwise |
| PaymentController.GetPaymentStatusAsWritten | backend/controllers/paymentController.js:268-298 | as written, 404 for an unknown order, and 200 exactly for admins (also lines 272-282) |
| PaymentController.AsWrittenDeniesOwner | backend/controllers/paymentController.js:272-282 | as written, every non-admin caller, the owner included, gets 403, where the corrected endpoint answers the owner 200 |
| PaymentController.GetPaymentStatus | backend/controllers/paymentController.js:268-298 | with `userId` selected, 404 for an unknown order; exactly admins and the owner get 200 and the stored payment status, total and details |
| PaymentController.HandleWebhook | backend/controllers/paymentController.js:301-322 | 400 without a signature; 500 with nothing changed when the signature of the re-serialised body does not match; otherwise the service's change applied, 200 iff it succeeded (also backend/services/paymentService.js:216-248) |
| CartController.ItemCountUpdate | backend/controllers/cartController.js:59 | changing one entry's quantity by d changes the cart's unit count by d (also backend/models/cartModel.js:55-57) |
| CartController.AddedItemsUnique | backend/controllers/cartController.js:53-63 | adding keeps one entry per food and leaves an entry for the food |
| CartController.AddedItemsCount | backend/controllers/cartController.js:53-63 | adding q units adds exactly q to the unit count, whether merged or appended |
| CartController.AddedItemsConform | backend/controllers/cartController.js:53-63 | adding at least one unit of a named food keeps every entry valid (also backend/models/cartModel.js:3-14) |
| CartController.RemovedItemsProperties | backend/controllers/cartController.js:132-140 | removing keeps one entry per food, leaves none for the food, and drops exactly one entry when there was one |
| CartController.RemoveAfterAdd | backend/controllers/cartController.js:53-63 | removing a food just added to a cart that lacked it gives the entries back (also lines 132-140) |
| CartController.Saved | backend/controllers/cartController.js:66 | saving keeps the owner and the entries and recomputes the total, zero for an empty cart (also backend/models/cartModel.js:31-52) |
| CartController.AddToCart | backend/controllers/cartController.js:26-79 | 400 for a missing food id or a quantity below 1, before any lookup; 404 for an unknown food; 500 for a failing lookup; otherwise 201 and the units merged into the caller's cart, created when missing |
| CartController.UpdateCartItem | backend/controllers/cartController.js:82-120 | 400 for a quantity below 1, 404 without a cart or without the entry, all changing nothing; otherwise exactly that entry's quantity is set and the cart saved |
| CartController.UpdateItemProperties | backend/controllers/cartController.js:98-106 | setting a quantity keeps one entry per food and changes the unit count by the difference |
| CartController.RemoveFromCart | backend/controllers/cartController.js:123-154 | 404 without a cart or without the entry, changing nothing; otherwise the entry is spliced out and the cart saved |
| CartController.ClearCart | backend/controllers/cartController.js:157-175 | 404 without a cart; otherwise the cart is saved with no entries and a zero total |
| CartController.GetCart | backend/controllers/cartController.js:5-23 | the stored cart unchanged, or a new empty cart saved for a caller without one |
| CartController.GetCartSummary | backend/controllers/cartController.js:178-199 | zeros and no entries without a cart; otherwise the stored entries, the stored total, and an `itemCount` that is exactly the sum of the entries' quantities |
| CartController.SummaryCountsUnits | backend/controllers/cartController.js:190-193 | a stored cart's summary counts at least one unit per entry (also backend/models/cartModel.js:8-12) |
| CartValidation.ValidateCartItem | backend/middleware/cartValidation.js:4-46 | 400 for a missing food id or a falsy quantity; passes on iff the quantity is an integer ≥ 1 and the food exists, is reachable and is available, attaching that food; 404 exactly for an unknown food after valid fields |
| CartValidation.ValidateCartOperation | backend/middleware/cartValidation.js:49-75 | 400 without a food id, 404 for an unknown food; passes on iff the food is found, attaching it |
| CartValidation.CheckCartLimits | backend/middleware/cartValidation.js:78-113 | refusals are 400, except a failing cart lookup, which answers 500 "Error checking cart limits" once the per-item check has passed; passes iff the lookup succeeds and the quantity is absent, or it is at most 20 and, with a cart, the cart's units plus it are at most 50 |
| CartValidation.AbsentQuantityPassesLimits | backend/middleware/cartValidation.js:86 | once the cart is read, a request without a quantity passes both limits whatever the cart holds (also line 99) |
| CartValidation.NoCartOnlyItemLimit | backend/middleware/cartValidation.js:86-104 | once the lookup finds no cart, only the 20-per-item limit applies |
| CartValidation.LimitsBoundAddedCart | backend/middleware/cartValidation.js:86-104 | a quantity that passed the limits, added to an existing cart, leaves it at most 50 units, and a new entry at most 20 (also backend/controllers/cartController.js:53-63) |
| CalculateTotalAmount.FirstUnpriced | backend/middleware/calculateTotalAmount.js:12-16 | the first item whose lookup does not find a food; every earlier one is found |
| CalculateTotalAmount.FirstUnpricedAt | backend/middleware/calculateTotalAmount.js:12-16 | the first unpriced position is the one before which all are priced and at which one is not |
| CalculateTotalAmount.CalculateTotal | backend/middleware/calculateTotalAmount.js:3-25 | 400 without items; 404 naming the first unknown food; a failing lookup is forwarded; otherwise the body goes on with `totalAmount` = Σ catalog price × quantity and nothing else changed |
| CalculateTotalAmount.ClientPricesIgnored | backend/middleware/calculateTotalAmount.js:11-20 | the total depends only on the foods and quantities, never on the prices the client sent |
| AuthController.FindBy | backend/controllers/authController.js:22 | the first document whose field equals the value, -1 iff there is none (also line 71) |
| AuthController.FindByAppended | backend/controllers/authController.js:22-38 | a document appended after non-matching ones is the one found (also line 71) |
| AuthController.SanitizeUser | backend/controllers/authController.js:6-9 | the password hash and `__v` are removed and every other field is kept as it is |
| AuthController.NextIndexOf | backend/controllers/authController.js:67 | the first position of the character at or after the start, or the end |
| AuthController.EmailFormat | backend/controllers/authController.js:67 | an address the anchored pattern accepts has at least five characters and contains an '@' and a '.' |
| AuthController.MatchesEmailPatternIffFormat | backend/controllers/authController.js:67 | the one-pass scan accepts exactly the strings `^\S+@\S+\.\S+$` matches |
| AuthController.UserStore.constructor | backend/controllers/authController.js:22-38 | the collection starts empty with at most one user per email |
| AuthController.Register | backend/controllers/authController.js:12-56 | 400 for a missing field and 409 for a taken email, both storing nothing; 500 when the save fails; otherwise 201, the user appended with the hashed password and the role or 'user', and answered without its hash with a token for its id and role |
| AuthController.Login | backend/controllers/authController.js:59-97 | 400 for missing credentials, then 400 for a malformed email; after those, a lookup, hash comparison or signing that throws answers 500 "Server error during login"; 200 iff nothing throws, the email is known and the password matches its hash, answering the sanitized user and a token for its id and role; every other answer is the same 401 |
| AuthController.LoginHidesWhichEmailsExist | backend/controllers/authController.js:71-80 | an unknown email and a known one with a wrong password get identical answers, with or without a thrown error |
| AuthController.RegisteredUserLogsIn | backend/controllers/authController.js:12-97 | a user who just registered logs in with the same credentials and gets the registration's token and user |
| AdminController.UpdateUserRole | backend/controllers/adminController.js:123-154 | 400 for a role other than 'user' or 'admin' with nothing touched; 500 'Failed to update user role' with nothing touched when the update query throws; 404 for an unknown id; otherwise only that user's role changes and the user is answered without the password |
| AdminController.MatchedRevenue | backend/controllers/adminController.js:34-62 | the aggregation gives no row iff no order has a matched status, otherwise the sum of their amounts (also lines 78-79) |
| AdminController.AsWrittenMatchesNothing | backend/controllers/adminController.js:23 | with the lower-case statuses, no valid order ever matches the revenue queries (also lines 38, 53; backend/models/orderModel.js:137-141) |
| AdminController.FinishedOrderCounted | backend/controllers/adminController.js:34-47 | with the schema's statuses, the revenue includes every finished order's amount when none is negative |
| AdminController.RevenueSumAtLeast | backend/controllers/adminController.js:29 | a sum of non-negative amounts is at least each matched amount (also lines 44, 59) |
| AdminController.RevenueSumNonNegative | backend/controllers/adminController.js:29 | a sum of non-negative amounts is non-negative (also lines 44, 59) |
| AdminController.PreviousRevenue | backend/controllers/adminController.js:79 | the previous month's total, or 1 when nothing matched or it summed to 0 |
| AdminController.RevenueGrowth | backend/controllers/adminController.js:80-82 | 0 for a non-positive previous revenue; otherwise its sign follows the change, and it is never below -100 for a non-negative current revenue |
| AdminController.DashboardGrowth | backend/controllers/adminController.js:78-84 | `userGrowth` is the plain difference of active users and is negative iff they fell; with no previous revenue, a current revenue of at least 1 grows |
| AdminController.AsWrittenGrowthIsMinusHundred | backend/controllers/adminController.js:78-82 | as written, the dashboard reports -100 percent revenue growth whatever the orders (also lines 38, 53) |
| MenuData.Candidates | frontend/oghouse-culinary-landing/src/components/menu/MenuGrid.jsx:53-63 | the three places the list is looked for, in order: `data`, `data.foods`, `data.items` |
| MenuData.FirstList | frontend/oghouse-culinary-landing/src/components/menu/MenuGrid.jsx:53-63 | the first present list, [] when none is |
| MenuData.FoodsFrom | frontend/oghouse-culinary-landing/src/components/menu/MenuGrid.jsx:53-63 | the branch chain both components write picks the first array among `data`, `data.foods` and `data.items`, else [] (also frontend/oghouse-culinary-landing/src/components/FeaturedMenu.jsx:26-36) |
| MenuGrid.Where | frontend/oghouse-culinary-landing/src/components/menu/MenuGrid.jsx:113-146 | `filter` keeps each element the predicate accepts as often as it occurs and drops the rest |
| MenuGrid.CategoryKeeps | frontend/oghouse-culinary-landing/src/components/menu/MenuGrid.jsx:111-118 | 'all' keeps every item; otherwise a kept item has a category, of the selection's length, equal to it ignoring case |
| MenuGrid.SearchKeeps | frontend/oghouse-culinary-landing/src/components/menu/MenuGrid.jsx:120-126 | an empty query keeps every item; otherwise a kept item's name or description is at least as long as the query |
| MenuGrid.VegKeeps | frontend/oghouse-culinary-landing/src/components/menu/MenuGrid.jsx:128-134 | 'all' keeps every item; otherwise a kept item has a diet field, of the selection's length, equal to it ignoring case |
| MenuGrid.PriceBounds | frontend/oghouse-culinary-landing/src/components/menu/MenuGrid.jsx:138 | neither bound is negative, and a range without a dash is a lower bound alone |
| MenuGrid.PriceKeeps | frontend/oghouse-culinary-landing/src/components/menu/MenuGrid.jsx:136-146 | 'all' keeps every item; otherwise a kept item is priced at least the lower bound, so a range whose lower bound is not a number keeps nothing |
| MenuGrid.SortKey | frontend/oghouse-culinary-landing/src/components/menu/MenuGrid.jsx:152-168 | the key is the price exactly for 'price'; every text key is lower-case |
| MenuGrid.LexLeTotal | frontend/oghouse-culinary-landing/src/components/menu/MenuGrid.jsx:170-174 | any two texts compare one way or the other |
| MenuGrid.LexLeTransitive | frontend/oghouse-culinary-landing/src/components/menu/MenuGrid.jsx:170-174 | text order chains |
| MenuGrid.BeforeTotal | frontend/oghouse-culinary-landing/src/components/menu/MenuGrid.jsx:149-175 | any two items compare one way or the other, for every sort field and direction |
| MenuGrid.BeforeTransitive | frontend/oghouse-culinary-landing/src/components/menu/MenuGrid.jsx:149-175 | the comparator's order chains, for every sort field and direction |
| MenuGrid.Sort | frontend/oghouse-culinary-landing/src/components/menu/MenuGrid.jsx:149 | sorting in place permutes the array and leaves it ordered by the comparator |
| MenuGrid.InsertAt | frontend/oghouse-culinary-landing/src/components/menu/MenuGrid.jsx:149 | one insertion step permutes the array and extends the ordered prefix by one |
| MenuGrid.BeforeOrdersConsistently | frontend/oghouse-culinary-landing/src/components/menu/MenuGrid.jsx:149-175 | the menu's comparator is total and transitive, unknown `sortBy` values sorting by name |
| MenuGrid.Narrow | frontend/oghouse-culinary-landing/src/components/menu/MenuGrid.jsx:109-146 | after the four filters an item remains, as often as it was fetched, exactly when every filter keeps it |
| MenuGrid.ApplyFilters | frontend/oghouse-culinary-landing/src/components/menu/MenuGrid.jsx:108-178 | the result holds exactly the fetched items every filter keeps, with their multiplicities, ordered ascending or descending by the sort key; the fetched list is untouched |
| MenuGrid.ClearedKeepsEverything | frontend/oghouse-culinary-landing/src/components/menu/MenuGrid.jsx:189-196 | after `clearFilters` every fetched item is shown, sorted by name ascending |
| MenuGrid.SplitAroundDash | frontend/oghouse-culinary-landing/src/components/menu/MenuGrid.jsx:138 | "a-b" over digit strings splits into exactly a and b |
| MenuGrid.ClosedRangeKeeps | frontend/oghouse-culinary-landing/src/components/menu/MenuGrid.jsx:137-146 | "min-max" with a non-zero max keeps exactly min ≤ price ≤ max |
| MenuGrid.OpenRangeKeeps | frontend/oghouse-culinary-landing/src/components/menu/MenuGrid.jsx:137-146 | "min-" keeps exactly price ≥ min |
| FeaturedMenu.Prefix | frontend/oghouse-culinary-landing/src/components/FeaturedMenu.jsx:41 | `slice(0, n)` is a prefix of length min(n, length) |
| FeaturedMenu.Featured | frontend/oghouse-culinary-landing/src/components/FeaturedMenu.jsx:39-41 | at most six items, each of them fetched and not marked unavailable |
| FeaturedMenu.PrefixOfShown | frontend/oghouse-culinary-landing/src/components/FeaturedMenu.jsx:39-41 | filtering then cutting to n gives the first n available items in list order |
| FeaturedMenu.PrefixCons | frontend/oghouse-culinary-landing/src/components/FeaturedMenu.jsx:41 | cutting a list with a head keeps the head and cuts the rest to one fewer |
| FeaturedMenu.FeaturedAreFirstAvailable | frontend/oghouse-culinary-landing/src/components/FeaturedMenu.jsx:38-41 | the featured list is exactly the first min(6, k) available items, an item without `isAvailable` counting as available |
| FeaturedMenu.FeaturedFoods | frontend/oghouse-culinary-landing/src/components/FeaturedMenu.jsx:19-49 | the first six available items of whatever list the response holds, or the sample list when the request fails |
| CheckoutForm.DeliveryFee | frontend/oghouse-culinary-landing/src/components/cart/CheckoutForm.jsx:62 | 40 iff the order type is 'delivery', else 0 (also line 87) |
| CheckoutForm.CalculateTotal | frontend/oghouse-culinary-landing/src/components/cart/CheckoutForm.jsx:85-89 | NaN exactly when the cart has no `totalPrice`; otherwise never below it, and above it by 40 exactly for a delivery |
| CheckoutForm.PayloadItems | frontend/oghouse-culinary-landing/src/components/cart/CheckoutForm.jsx:56-60 | one line per cart line, in order, with the populated food id, else the line id, the quantity and the line's price |
| CheckoutForm.Payload | frontend/oghouse-culinary-landing/src/components/cart/CheckoutForm.jsx:54-64 | the form's fields, the lines, `totalAmount` = the cart's `totalPrice` (undefined when it is), the fee, and `finalAmount` = that total + 40 for a delivery, the total otherwise; with the total undefined, `finalAmount` is NaN for a delivery and undefined for a pickup, both of which the model writes as None |
| CheckoutForm.ShownTotalIsSent | frontend/oghouse-culinary-landing/src/components/cart/CheckoutForm.jsx:85-89 | the amount the form shows is the `finalAmount` it sends, NaN included, and that is the sent `totalAmount` plus the fee (also lines 61-63) |
| CheckoutForm.LinesOf | frontend/oghouse-culinary-landing/src/hooks/useCart.js:16-18 | one line per stored entry, in order, with its quantity, the populated food's id or "" for a deleted food, and no `price` (also backend/controllers/cartController.js:7-18) |
| CheckoutForm.FetchedCartAsWritten | frontend/oghouse-culinary-landing/src/hooks/useCart.js:16-18 | as written, the hook keeps the server's cart document, which has no `totalPrice` (also backend/models/cartModel.js:16-27) |
| CheckoutForm.AsWrittenTotalIsNaN | frontend/oghouse-culinary-landing/src/components/cart/CheckoutForm.jsx:85-89 | as written, for every fetched cart the form shows NaN, and the body carries an undefined `totalAmount` and a `finalAmount` that is NaN for a delivery and undefined for a pickup (also lines 61-63) |
| CheckoutForm.FetchedCart | frontend/oghouse-culinary-landing/src/hooks/useCart.js:16-18 | the corrected reading differs from the as-written cart only in taking the server's `totalAmount` as the total |
| CheckoutForm.CheckoutTotalMatchesServer | frontend/oghouse-culinary-landing/src/components/cart/CheckoutForm.jsx:85-89 | with the server's `totalAmount`, the total shown and sent for a saved cart is its catalog-priced total plus the fee, the amount the cart sheet's corrected total also gives (also backend/models/cartModel.js:31-52) |
| CheckoutForm.Submit | frontend/oghouse-culinary-landing/src/components/cart/CheckoutForm.jsx:38-66 | refused without a name or a phone, then refused for a delivery without an address; sent iff neither applies, with the payload |
| CheckoutForm.PickupWithoutAddress | frontend/oghouse-culinary-landing/src/components/cart/CheckoutForm.jsx:46-49 | a pickup without an address is sent |
| CheckoutForm.SubmitEffects | frontend/oghouse-culinary-landing/src/components/cart/CheckoutForm.jsx:38-83 | the request goes out iff the checks pass; the cart is cleared only after the request succeeded, and `onSuccess` runs only after that; a failed request shows only the failure notice |
| CheckoutForm.RequestAsWritten | frontend/oghouse-culinary-landing/src/components/cart/CheckoutForm.jsx:54-66 | as written, the order type goes to the server unchanged, and neither radio value is a schema value |
| CheckoutForm.AsWrittenCheckoutRejected | frontend/oghouse-culinary-landing/src/components/cart/CheckoutForm.jsx:54-66 | as written, every order the checkout sends fails the server's order-type validation (also line 25; backend/models/orderModel.js:162-166) |
| CheckoutForm.SchemaOrderType | backend/models/orderModel.js:162-166 | 'delivery' and 'pickup' map to the schema's 'Delivery' and 'Pickup' |
| CheckoutForm.Request | frontend/oghouse-culinary-landing/src/components/cart/CheckoutForm.jsx:54-66 | the corrected request differs from the as-written one only in the order type, which for either radio value is a schema value |
| CheckoutForm.CheckoutConforms | frontend/oghouse-culinary-landing/src/components/cart/CheckoutForm.jsx:41-66 | with the schema's spelling, every checkout the form sends yields an order that passes validation (also backend/controllers/orderController.js:60-90) |
| CartSheet.SheetItemsOf | frontend/oghouse-culinary-landing/src/components/cart/CartSheet.jsx:26-27 | the sheet's lines for a stored cart carry the catalog price under the food, no `price` of their own, and the quantities (also backend/controllers/cartController.js:7-9) |
| CartSheet.CalculateTotalAsWritten | frontend/oghouse-culinary-landing/src/components/cart/CartSheet.jsx:71-73 | as written, the total is a number exactly when every line has its own `price`, NaN otherwise |
| CartSheet.CalculateTotal | frontend/oghouse-culinary-landing/src/components/cart/CartSheet.jsx:71-73 | Σ the populated food's price × quantity is a number exactly when every line's food was populated |
| CartSheet.AsWrittenTotalIsNaN | frontend/oghouse-culinary-landing/src/components/cart/CartSheet.jsx:71-73 | as written, the total of any non-empty cart is NaN |
| CartSheet.SheetTotalMatchesServer | frontend/oghouse-culinary-landing/src/components/cart/CartSheet.jsx:71-73 | reading the food's price, the sheet's total equals the cart's priced total (also backend/models/cartModel.js:31-45) |
| CartSheet.GetTotalItems | frontend/oghouse-culinary-landing/src/components/cart/CartSheet.jsx:75-77 | Σ quantity; with at least one unit per line, at least as many units as lines |
| CartSheet.SheetTotalStep | frontend/oghouse-culinary-landing/src/components/cart/CartSheet.jsx:72 | the last line adds exactly the server's amount for the last entry (also backend/models/cartModel.js:39-41) |
| CartSheet.SheetCountMatchesServer | frontend/oghouse-culinary-landing/src/components/cart/CartSheet.jsx:75-77 | `getTotalItems` equals the cart's `itemCount` (also backend/models/cartModel.js:55-57) |
| CartSheet.Sheet.constructor | frontend/oghouse-culinary-landing/src/components/cart/CartSheet.jsx:12-14 | the sheet starts closed, empty and without notices |
| CartSheet.Sheet.FetchCart | frontend/oghouse-culinary-landing/src/components/cart/CartSheet.jsx:23-34 | the refetched lines, or the old lines and the load-failure notice |
| CartSheet.Sheet.UpdateQuantity | frontend/oghouse-culinary-landing/src/components/cart/CartSheet.jsx:36-47 | a quantity below 1 changes nothing and sends no request; otherwise a failed request shows its notice and keeps the lines, and a successful one refetches and confirms |
| CartSheet.Sheet.RemoveItem | frontend/oghouse-culinary-landing/src/components/cart/CartSheet.jsx:49-58 | a failed request shows its notice and keeps the lines; a successful one refetches and confirms |
| CartSheet.Sheet.ClearCart | frontend/oghouse-culinary-landing/src/components/cart/CartSheet.jsx:60-69 | the lines become [] only when the request succeeds |
| CartSheet.Sheet.HandleCheckout | frontend/oghouse-culinary-landing/src/components/cart/CartSheet.jsx:79-89 | an empty cart is refused and the sheet stays as it was; otherwise it closes |
| AuthHook.SessionResultAsWritten | frontend/oghouse-culinary-landing/src/hooks/useAuth.jsx:31-38 | as written, the test on the axios response object never holds, whatever the server answered |
| AuthHook.SessionResult | frontend/oghouse-culinary-landing/src/hooks/useAuth.jsx:31-38 | read on the body, a reply that does not resolve never signs in, and one that signs in carries a session |
| AuthHook.AsWrittenLoginNeverSucceeds | frontend/oghouse-culinary-landing/src/hooks/useAuth.jsx:27-43 | as written, `login` resolves with false even when the server accepted the credentials (also frontend/oghouse-culinary-landing/src/lib/api.js:43) |
| AuthHook.LoginSucceedsIffAccepted | frontend/oghouse-culinary-landing/src/hooks/useAuth.jsx:27-43 | reading the body, `login` resolves with true exactly when the server accepts the credentials and nothing throws on its side (also backend/controllers/authController.js:59-97) |
| LoginForm.LooksLikeEmail | frontend/oghouse-culinary-landing/src/components/auth/LoginForm.jsx:33 | an address the unanchored pattern accepts has at least five characters and contains an '@' and a '.' |
| LoginForm.ServerFormatPassesForm | frontend/oghouse-culinary-landing/src/components/auth/LoginForm.jsx:33 | every address the server's pattern accepts passes the form's (also backend/controllers/authController.js:67) |
| LoginForm.FormLooserThanServer | frontend/oghouse-culinary-landing/src/components/auth/LoginForm.jsx:33 | an address with a leading space passes the form and fails the server (also backend/controllers/authController.js:67) |
| LoginForm.ErrorMessage | frontend/oghouse-culinary-landing/src/components/auth/LoginForm.jsx:85-97 | never empty; 401, 404 and 500 first, then the server's message, then the error's, then the fixed text |
| LoginForm.LoginForm.constructor | frontend/oghouse-culinary-landing/src/components/auth/LoginForm.jsx:11-16 | the fields start empty, without errors and not logged in |
| LoginForm.LoginForm.ValidateForm | frontend/oghouse-culinary-landing/src/components/auth/LoginForm.jsx:28-43 | a blank email, then a malformed one, and an empty password each record their error; valid iff none was recorded |
| LoginForm.LoginForm.HandleSubmit | frontend/oghouse-culinary-landing/src/components/auth/LoginForm.jsx:45-106 | no login unless the fields pass; success and `onSuccess` only for exactly `true`; false gives the credentials notice; a thrown error gives the chosen message |
| LoginForm.LoginForm.HandleInputChange | frontend/oghouse-culinary-landing/src/components/auth/LoginForm.jsx:108-120 | the edited field's error and the general error are blanked, other errors kept, and the field updated |
| RegisterForm.Checks | frontend/oghouse-culinary-landing/src/components/auth/RegisterForm.jsx:24-32 | a mismatch is refused before the length; passes iff the passwords match and have at least 6 characters |
| RegisterForm.SubmitAsWritten | frontend/oghouse-culinary-landing/src/components/auth/RegisterForm.jsx:21-50 | as written, the form never switches to login; it refuses exactly when the password checks fail |
| RegisterForm.AsWrittenNeverSwitches | frontend/oghouse-culinary-landing/src/components/auth/RegisterForm.jsx:36-44 | as written, an accepted registration still leaves the user on the form with the failure notice |
| RegisterForm.Submit | frontend/oghouse-culinary-landing/src/components/auth/RegisterForm.jsx:21-50 | refused by the checks, switched to login iff the checks pass and `register` resolved with true, failure notice otherwise |
| RegisterForm.SwitchesIffRegistered | frontend/oghouse-culinary-landing/src/components/auth/RegisterForm.jsx:21-50 | the form switches exactly when the checks pass and the server answered 2xx with a token (also frontend/oghouse-culinary-landing/src/hooks/useAuth.jsx:45-61) |
| RegisterForm.HintDisablesSubmit | frontend/oghouse-culinary-landing/src/components/auth/RegisterForm.jsx:145-147 | whenever the mismatch hint shows the button is disabled; an enabled button with a filled confirmation means the passwords match (also line 153) |
| RegisterForm.EmptyConfirmRefused | frontend/oghouse-culinary-landing/src/components/auth/RegisterForm.jsx:24-27 | with a password typed and the confirmation empty the button is enabled, and `handleSubmit` refuses the submission as a mismatch (also line 153; the input's `required` attribute at line 133 stops a browser submission first) |
| Common.OrElse | backend/controllers/orderController.js:74-79 | the fallback of a string: the first unless it is empty, and empty only when both are empty (also line 61) |
| Common.ToLower | frontend/oghouse-culinary-landing/src/components/menu/MenuGrid.jsx:116 | lower-casing keeps the length and maps each character (also lines 123, 132) |
| Common.Trim | backend/services/emailService.js:70 | the trimmed text neither starts nor ends with whitespace |
| Common.TrimEmptyIffAllSpace | frontend/oghouse-culinary-landing/src/components/auth/LoginForm.jsx:31 | a text trims to nothing iff it is all whitespace |
| Common.TrimKeepsCharacters | backend/services/emailService.js:70 | trimming only removes characters |
| Common.TrimKeepsNonSpace | backend/services/emailService.js:70 | trimming keeps every character that is not whitespace |
| Common.TrimNoSpace | backend/services/emailService.js:70 | a text without whitespace is its own trim |
| Common.Split | backend/services/emailService.js:69 | at least one piece, none containing the separator (also frontend/oghouse-culinary-landing/src/components/menu/MenuGrid.jsx:138) |
| Common.JoinSplit | backend/services/emailService.js:69 | joining the pieces with the separator gives the text back |
| Common.SplitWithoutSeparator | frontend/oghouse-culinary-landing/src/components/menu/MenuGrid.jsx:138 | a text without the separator is a single piece |
| Common.SplitAfterPiece | frontend/oghouse-culinary-landing/src/components/menu/MenuGrid.jsx:138 | a separator after a piece without one splits that piece off |
| Common.ParseNumber | frontend/oghouse-culinary-landing/src/components/menu/MenuGrid.jsx:138 | `Number` gives 0 for "" and never a negative value for the strings modelled |
| Common.ParseNatToString | frontend/oghouse-culinary-landing/src/components/menu/MenuGrid.jsx:138 | parsing a rendered natural number gives it back |
| Common.Round | backend/config/razorpay.js:27 | `Math.round` lands within half of its argument, halves going up (also backend/controllers/adminController.js:81) |

## Left out

- Persistence internals: `populate`, `select` projections other than the one in `getPaymentStatus`, `findByIdAndUpdate`, `aggregate`, `countDocuments` and `distinct` are not modelled as queries. A store is a map from id to record, and a populated reference is read through the catalog.
- Database failures: lookups in the order store (`OrderModel.OrderStore.Find`), the cart store (`CartModel.CartStore.FindByUser`) and the user list (`AuthController.FindBy`) never fail in the model. So the catch-all 500 that each endpoint answers for a database or cast error is not reachable through them, and a malformed order or cart id finds nothing where the source answers 500. The failures that are modelled: food lookups (ids in `FoodCatalog.Catalog.unreachable`, which also reach the cart pre-save hook's price lookups), saves refused by validation, the user `save` (`saveFails`), `AuthController.Login`'s `thrown`, `CartValidation.CheckCartLimits`'s `lookupFails` and `AdminController.UpdateUserRole`'s `queryFails`.
- Concurrency: each endpoint runs to completion against the store. Interleaved read-modify-write on the same order or cart is not modelled.
- Socket.IO transport: the server setup, the delivery of emissions and the debug broadcasts (backend/services/notificationService.js:5-34, 76-85, 130-139). An emission records the room's sockets when it was sent.
- Wall clock and floating point: `now` is one integer millisecond value per request, and money is an exact real. IEEE rounding of `amount * 100` and `Intl` currency formatting are not modelled.
- SMTP delivery and the HTML body of the admin e-mail: a sent message records its envelope and item rows only.
- JSON parsing: request quantities are whole numbers (the cart controller) or exact numbers (the middlewares). Strings that happen to be numeric are not modelled.
- Common.ToLower: folds the ASCII letters A-Z only and keeps every other character, so it keeps the length. JavaScript's `toLowerCase` also folds other letters ('É' to 'é'), and some change length ('İ' becomes two UTF-16 units). "Keeps the length" holds of the model only.
- MenuGrid.CategoryKeeps: "ignoring case" is ASCII-only folding. A category 'Café' is not kept for the selection 'CAFÉ' in the model, but it is in the program. The equal-length property holds of the model only.
- MenuGrid.SearchKeeps: the case-insensitive `includes` folds ASCII only. The query 'é' does not find the name 'CRÈME BRÛLÉE' or 'ÉCLAIR' in the model, but it does in the program.
- MenuGrid.VegKeeps: "ignoring case" is ASCII-only folding, with the same difference as CategoryKeeps for diet values outside ASCII.
- RegisterForm.Checks: the length check counts code points, where `password.length` counts UTF-16 units. A password of three characters above U+FFFF has `length` 6 and passes in the program, but is refused as too short in the model.
- `JSON.stringify` of the webhook body is a parameter of `PaymentController.HandleWebhook`.
- User.js is not part of this model: a user is a map of its fields, and a failing `save` is the parameter `saveFails`.
- CalculateTotalAmount.CalculateTotal: a thrown lookup error is passed on as `Forward`, without the error object that `next(err)` carries.
- OrderController.CartOrderStartsTwicePending: a new order built from a cart is seeded with one Pending entry, and Mongoose marks every explicitly set path of a new document as modified. So the save hook adds a second Pending entry. The lemma states the saved history exactly. `processPaymentFromCart` builds its order the same way.
- PaymentService.WithPaymentSuccess: the `paymentDetails.amount` assigned at backend/services/paymentService.js:82 is not a path of the payment-details schema (backend/models/orderModel.js:56-101), so Mongoose drops it. The model therefore does not state "amount = parseAmount(amount)", nor that the recorded amount equals `totalAmount`.
- PaymentController.VerifyPayment: its contract is stated over the corrected service check (`PaymentService.VerifyPayment`). As written, the service always fails, so every request carrying all four fields ends in 500 (`PaymentController.AsWrittenVerifyAnswers500`). The `totalAmount * 100` it passes to the service is not stored, for the reason given for WithPaymentSuccess, so its contract says nothing about an amount.
- OrderController.GetOrderTracking: the source compares `order.userId?.toString()` after `populate('userId')`, which prints the whole user document. Both halves are modelled: `OrderController.GetOrderTrackingAsWritten` takes the printing as the parameter `inspect`, and the corrected member compares the stored owner id. The same holds for OrderTrackingService.GetOrderTracking. The exact text Node prints for a document is not modelled; the lemmas rely only on its first character being a brace.
- OrderTrackingService.MarkOrderDelivered: its result reuses the `StatusUpdate` record, whose `statusChanged` field the source's return object does not have.
- LoginForm.LoginForm.HandleSubmit: the catch branch is modelled, but it is unreachable through the hook's `login`, which catches every error and resolves with false.
- The front end's request layer: the axios instance and its 401 redirect (frontend/oghouse-culinary-landing/src/lib/api.js), localStorage session handling, the `isLoading` flags, and the cart hook's refresh state. The outcome of each request is a parameter.
- CheckoutForm: the cart comes from the cart hook. `CheckoutForm.FetchedCartAsWritten` is the cart as the hook keeps it, and `CheckoutForm.FetchedCart` is the corrected reading. The hook's initial cart, `{ items: [], totalPrice: 0 }`, has no lines, so the form shows no totals for it. The per-line `item.price * item.quantity` the summary renders is not modelled. `handleInputChange` is a field spread and is not modelled.
- The sample list FeaturedMenu shows when its fetch fails is a parameter. MenuGrid's fetch, with its own sample list on failure, is modelled only as far as the shape of a successful response (`MenuData.FoodsFrom`).
- Admin endpoints: `getAllUsers`, `getSystemStats` and the database side of `getDashboardStats` are queries. Only the role check and the growth arithmetic are modelled. A malformed id or a database error in `updateUserRole` is the parameter `queryFails`.
- The order controller's `getOrdersByStatus`, `getOrderAnalytics`, `getAllOrders`, `getOrderById`, `updateOrder` and `deleteOrder`, and the tracking service's `getOrdersByStatus` and `getOrderAnalytics`: database queries and aggregations with no logic of their own.
- `getPaymentDetails` (backend/services/paymentService.js:192-213, backend/controllers/paymentController.js:200-218): a pass-through of the gateway's `payments.fetch`.
- AdminPage.jsx sends lower-case statuses that the order schema refuses. The admin page is presentation and is not part of this model.
- Razorpay.VerifyWebhookSignature is a bare predicate. Its properties are stated by the lemmas and callers beside it.
- EmailService.SmtpPort: only ports spelled with unsigned decimal digits, with spaces around them, are modelled. JavaScript's `Number` also reads a sign, a fraction, an exponent, `0x`/`0o`/`0b` prefixes and `Infinity`: "-25", "25.5", "1e3" and "0x19" give -25, 25.5, 1000 and 25, where the model falls back to 587. So `port > 0` is a property of the model only. `EmailService.SmtpPortNotANumber` is stated only for text holding a character that no spelling `Number` accepts can contain.
- MenuGrid.ApplyFilters: its category, diet and search filters and its text sort keys use the ASCII-only `Common.ToLower` above. So the kept items and the order differ from the program's for letters outside ASCII. The sort also compares text keys by code point, where JavaScript's `>` on strings compares UTF-16 code units. A name with a character above U+FFFF sorts after one with a character in U+E000..U+FFFF in the model, and before it in the program. Names within the Basic Multilingual Plane sort the same.
- MenuGrid.ClearedKeepsEverything: its order is the code-point order of `MenuGrid.ApplyFilters`, with the same difference from UTF-16 order above U+FFFF.
- MenuGrid.LexLe: compares strings by code point, not by UTF-16 code unit. The two orders differ only between characters above U+FFFF and characters in U+E000..U+FFFF.
- CartController.AddToCart: ids are modelled in their canonical lower-case spelling and compared as exact strings. Mongoose casts a 24-digit hex id regardless of letter case, and a stored ObjectId prints in lower case. So for the upper-case spelling of a food already in the cart, the source's `Food.findById` finds the food. Its `item.food.toString() === foodId` then misses the existing entry (backend/controllers/cartController.js:53-55), and it pushes a second entry for the same food. The model answers 404 for that spelling, so `CartController.AddedItemsUnique` holds of the model only.
- FoodCatalog.FindById: a food is found only by the exact spelling of its id, not by the other letter cases Mongoose's cast accepts. For the same reason, `CartValidation.ValidateCartItem` and `CartValidation.ValidateCartOperation` answer 404 for such a spelling, where the source passes the request on.
- CartSheet.SheetItemsOf: a stored cart line's own subdocument `_id` is not modelled, and each line's `id` is "". For a line whose food was deleted, `item.food?._id || item._id` is that `_id` in the program and "" in the model (also `CheckoutForm.LinesOf`).

## Findings

| source | as written | input that shows it | evidently intended | confidence | as-written member | corrected member |
|---|---|---|---|---|---|---|
| backend/services/paymentService.js:45-62 | `verifyPayment` calls `crypto.createHmac`, but the module never requires `crypto` (lines 1-9), so no `crypto` module with `createHmac` is in scope. The call throws (a ReferenceError, or a TypeError where a global Web Crypto `crypto` exists), and the catch rethrows 'Payment verification failed'. | any call, including one whose signature is the genuine HMAC of `orderId` and `paymentId` | the payment is verified exactly when the signature equals the hex HMAC of `orderId` and `paymentId` joined by a bar | not executed | PaymentService.AsWrittenRejectsGenuineSignature | PaymentService.VerifyPayment |
| backend/controllers/paymentController.js:272-282 | `getPaymentStatus` selects only `paymentStatus`, `paymentDetails` and `totalAmount`, then compares `order.userId` with the caller | the order's owner, who is not an admin, asks for the status of their own order and gets 403 | admins and the owner get the payment status | not executed | PaymentController.AsWrittenDeniesOwner | PaymentController.GetPaymentStatus |
| frontend/oghouse-culinary-landing/src/components/cart/CheckoutForm.jsx:54-66 | the body carries `orderType` as 'delivery' or 'pickup', the radio buttons' values; the order schema allows only 'Delivery' and 'Pickup' (backend/models/orderModel.js:162-166) | any checkout that passes the form's checks: the order built from it fails validation and the server answers 500 | the order type in the schema's spelling | not executed | CheckoutForm.AsWrittenCheckoutRejected | CheckoutForm.CheckoutConforms |
| frontend/oghouse-culinary-landing/src/components/cart/CartSheet.jsx:71-73 | `calculateTotal` multiplies `item.price`, which a stored cart line does not have | a cart with one line: the sheet shows NaN as its total | Σ the populated food's price × quantity, equal to the cart's `totalAmount` | not executed | CartSheet.AsWrittenTotalIsNaN | CartSheet.SheetTotalMatchesServer |
| frontend/oghouse-culinary-landing/src/hooks/useAuth.jsx:27-43 | `login` tests `response.token && response.user` on the axios response object, whose fields are `data`, `status` and the like | correct credentials: the server answers 200 with a token and a user, and `login` resolves with false | the same test on `response.data` | not executed | AuthHook.AsWrittenLoginNeverSucceeds | AuthHook.LoginSucceedsIffAccepted |
| frontend/oghouse-culinary-landing/src/components/auth/RegisterForm.jsx:36-44 | `handleSubmit` reads `response?.user` on the boolean that `register` resolves with | a new user with matching passwords of 6 or more characters: the account is created, and the form stays open with 'Registration failed' | switch to the login form when `register` resolved with true | not executed | RegisterForm.AsWrittenNeverSwitches | RegisterForm.SwitchesIffRegistered |
| backend/controllers/adminController.js:23 | the revenue queries match the statuses 'completed' and 'delivered' (also lines 38, 53), which no valid order has (backend/models/orderModel.js:137-141) | any set of orders: the revenue is 0 and the growth is -100 percent | match 'Completed' and 'Delivered' | not executed | AdminController.AsWrittenGrowthIsMinusHundred | AdminController.FinishedOrderCounted |
| backend/controllers/orderController.js:138-150 | `getOrderTracking` populates `userId` and then compares `order.userId?.toString()`, the printed user document, with the caller's id | the order's owner, who is not an admin, asks to track their own order and gets 403 | admins and the owner may track the order | not executed | OrderController.AsWrittenTrackingDeniesOwner | OrderController.GetOrderTracking |
| backend/services/orderTrackingService.js:53-65 | `getOrderTracking` populates `userId` and then compares `order.userId?.toString()`, the printed user document, with the caller's id | the order's owner, who is not an admin, asks for the tracking of their own order and gets 'Access denied' | admins and the owner get the tracking | not executed | OrderTrackingService.AsWrittenTrackingDeniesOwner | OrderTrackingService.GetOrderTracking |
| frontend/oghouse-culinary-landing/src/components/cart/CheckoutForm.jsx:85-89 | `calculateTotal` adds the fee to `cart.totalPrice`, but the cart hook keeps the server's cart document (frontend/oghouse-culinary-landing/src/hooks/useCart.js:16-18), which has `totalAmount` and no `totalPrice` (backend/models/cartModel.js:16-27) | any fetched cart with one line: the form shows 'Place Order - ₹NaN', and the body's `totalAmount` is undefined, and its `finalAmount` is NaN for a delivery and undefined for a pickup (also lines 61-63) | the server's `totalAmount` plus the delivery fee | not executed | CheckoutForm.AsWrittenTotalIsNaN | CheckoutForm.CheckoutTotalMatchesServer |
