# jobber order service: a Dafny model of the order lifecycle

This project models the core of the jobber marketplace's order service, which is written in TypeScript. A buyer places an order for a seller's gig; the seller delivers work and may ask for more time. The buyer grants or refuses that extension, approves or cancels the order, and both parties leave reviews. Each step:

- updates one order document in the store with a single `findOneAndUpdate`;
- publishes messages to the users service and the email service through the message broker;
- stores a notification for one party and pushes it on the realtime socket.

The payment gateway is asked to create customers, payment intents and refunds. Delivered files go to object storage.

What the model contains:

- **Data.** The orders, the notifications and the ordered log of every call made to a collaborator are one value, `Store.State`. `Store.Backend` is a class holding the same collections as mutable fields.
- **Operations.** Each service operation is a function `XSpec` from the old state and its inputs to the new state and the result. A method `X` performs the same steps on a `Backend`. Each `X` ensures it reaches exactly `XSpec(old state, inputs)` and keeps the backend well formed.
- **Lemmas.** They state, for every input, what each operation does:
  - which order fields change and which stay;
  - which messages are published, in which order and with which contents;
  - who is notified;
  - what happens when no order matches.
- **Whole histories.** These lemmas cover any sequence of service calls. Orders are never lost. An order's identity, its amounts and its delivered work survive. A notification can change only from unread to read. The outbox only grows.

Modules and files:

- `Models` (`models.dfy`): the order document, the request bodies, the notification, the message payloads, the effects and the errors.
- `Updates` (`updates.dfy`): the update documents and their meaning on one order.
- `Store` (`store.dfy`): the collections, the store primitives, the read queries and the `Backend` class.
- `NotificationService` (`notification_service.dfy`): the notification service.
- `OrderService` (`order_service.dfy`): the order service.
- `CreateController` and `UpdateController` (`create_controller.dfy`, `update_controller.dfy`): the HTTP controllers in front of the services.
- `Lifecycle` (`lifecycle.dfy`): properties of whole histories, plus one walk from placement to approval.

Inputs the model takes as parameters:

- The clock is a `now: Timestamp` parameter.
- The shared library's `lowerCase` and the configured client URL are fields of `Store.Config`.
- The gateway's and object storage's answers are parameters: the customers found, the id of a created customer, the intent, which of the three payment-intent calls (`customers.search`, `customers.create`, `paymentIntents.create`), if any, the gateway rejects, whether a refund went through, and the upload result.
- The random upload name is a parameter.
- The schema validator's first error message is an `Option<string>` parameter.

What goes out is recorded in `State.outbox`. Each entry is one of:

- a broker message (`Published`);
- a socket emission (`Emitted`);
- a gateway call (`Gateway`);
- an upload (`Uploaded`).

Where the code does something a reader might not expect, the model follows the code:

- **Cancelling notifies the seller.** It sends the notification "Cancelled your order delivery" to the seller (`order.service.ts:144`).
- **Delivery stores the raw file.** The delivered-work record keeps the request body's `file`. The uploaded file's `secure_url` is assigned to a variable and never read (`update.ts:86`, `update.ts:91`). See `UpdateController.UploadUrlIsDiscarded`.
- **No update checks the status.** A cancelled order can still be delivered or completed (`Updates.StatusIsNotGuarded`). So the order states do not form a monotone state machine.
- **Creation stores the body as it is.** `createOrder` does not set a status. Approval gets the days from its own request body, not from the stored extension request (`Updates.ApprovalAddsApprovedDays`).
- **Resolving an extension needs no pending request.** Approving or rejecting works even when no request was made (`Updates.RejectForgetsRequest`).
- **Each delivery overwrites the delivery time.** `events.orderDelivered` is set again at every delivery, not only at the first.
- **Any other route type rejects.** `deliveryDate` approves when the route's type is exactly `approve`, and rejects for every other type (`update.ts:61`).
- **A missing order throws after publishing.** When no order matches, `cancelOrder` and `approveOrder` have already published both of their messages. They then fail reading a field of `null` (`MissingOrder`). `updateOrderReview` fails the same way, but before sending anything.

## Model

| member | source | states |
|---|---|---|
| Store.GetOrderByOrderId | src/services/order.service.ts:15-20 | an order is found exactly when one is stored under the id; the order found is one of the stored orders, and it carries that id |
| Store.GetOrdersBySellerId | src/services/order.service.ts:22-27 | an order is listed exactly when it is stored and its sellerId is the given one, and no order is listed twice |
| Store.GetOrdersByBuyerId | src/services/order.service.ts:29-34 | an order is listed exactly when it is stored and its buyerId is the given one, and no order is listed twice |
| Store.OrdersWhere | src/services/order.service.ts:22-34 | every order listed is a stored order of the requested party, and there are no more of them than ids |
| Store.OrdersWhereComplete | src/services/order.service.ts:22-34 | every stored order of the requested party whose id is listed is returned |
| Store.OrdersWhereDistinct | src/services/order.service.ts:22-34 | over distinct ids, each naming an order stored under its own id, every order returned has one of the ids, and none is returned twice |
| Store.InsertOrder | src/services/order.service.ts:37 | `create` adds the order under its id, appends the id to the creation order, and keeps the store well formed |
| Store.UpdateOrder | src/services/order.service.ts:108-118 | `findOneAndUpdate` applies the update to the matching order only; the keys, the other orders, the notifications and the outbox are unchanged; the store stays well formed |
| Store.Backend.Create | src/services/order.service.ts:37 | the order is stored exactly when its id is new; the backend's state becomes `InsertOrder` of the old one, or stays the same |
| Store.Backend.FindOneAndUpdate | src/services/order.service.ts:196-209 | the new state is `UpdateOrder` of the old one, and it returns the updated order or null |
| Store.Backend.InsertNotification | src/services/notification.service.ts:6-9 | appends the notification and returns its position as its id |
| Store.Backend.SetRead | src/services/notification.service.ts:21-25 | sets `isRead` on the notification with that id, and returns it or null |
| Store.NotificationsTo | src/services/notification.service.ts:11-18 | a notification addressed to the user is kept as many times as it is stored; any other is dropped |
| Store.GetNotificationsById | src/services/notification.service.ts:11-18 | every stored notification whose `userTo` is the given user appears as many times as it is stored, and no other appears |
| Store.MarkRead | src/services/notification.service.ts:21-25 | the store keeps its length; only the notification with that id changes; it becomes read and is otherwise the same |
| Updates.Cancel | src/services/order.service.ts:108-118 | the order becomes cancelled with status Cancelled, `approvedAt` becomes now, and nothing else changes |
| Updates.Approve | src/services/order.service.ts:149-159 | the order becomes approved with status Completed, `approvedAt` becomes now, and nothing else changes |
| Updates.Deliver | src/services/order.service.ts:196-209 | status Delivered; the delivered flag as given; `events.orderDelivered` is now; the work is appended after all earlier work; nothing else changes |
| Updates.RequestExtension | src/services/order.service.ts:238-250 | the four fields of the request slot are taken from the input, and nothing else changes |
| Updates.ApproveExtension | src/services/order.service.ts:279-298 | the delivery days grow by the approved days; the offer's two dates and reason come from the input; `events.deliveryDateUpdate` is set; the slot is emptied; nothing else changes |
| Updates.RejectExtension | src/services/order.service.ts:326-339 | the slot is emptied, and the offer, the status and everything else stay |
| Updates.AttachReview | src/services/order.service.ts:367-390 | a buyer review sets `buyerReview` and `events.buyerReview`; any other kind sets `sellerReview` and `events.sellerReview`; nothing else changes |
| Updates.Apply | src/services/order.service.ts:108-390 | no update changes the identity of the order or of its parties, its price, service fee or requirements, or the work already delivered |
| Updates.HistoryIsSuccessor | src/services/order.service.ts:108-390 | the same holds after any sequence of updates |
| Updates.CancelIdempotent | src/services/order.service.ts:108-118 | cancelling twice with the same time is the same as cancelling once |
| Updates.DeliverTwice | src/services/order.service.ts:204-206 | two deliveries append both records, in order |
| Updates.RejectForgetsRequest | src/services/order.service.ts:326-339 | rejecting after a request gives the same order as rejecting without one |
| Updates.ApprovalAddsApprovedDays | src/services/order.service.ts:283 | approval adds the days in its own body, whatever days the request stored |
| Updates.StatusIsNotGuarded | src/services/order.service.ts:196-209 | a cancelled order can still be set to Delivered or Completed |
| Updates.ReviewsAreSeparate | src/services/order.service.ts:370-387 | a buyer review leaves the seller review alone, and the other way round |
| NotificationService.RecipientChoosesOnlyUserTo | src/services/notification.service.ts:34-43 | the record names the seller as sender and the buyer as receiver whoever it is addressed to; only `userTo` depends on the recipient; it starts unread |
| NotificationService.SendNotificationEffect | src/services/notification.service.ts:34-46 | exactly one notification is stored, then it is emitted with the order on `order_notification`; the orders are unchanged |
| NotificationService.CreateNotification | src/services/notification.service.ts:6-9 | the new state is the old one with the record appended, and it returns the stored record |
| NotificationService.SendNotification | src/services/notification.service.ts:34-46 | the backend reaches `SendNotificationSpec` of its old state |
| NotificationService.MarkAsReadEffect | src/services/notification.service.ts:20-32 | a stored notification is marked read and changes in nothing else; it is emitted with the order it names, or with null; an unknown id changes nothing |
| NotificationService.MarkAsReadIdempotent | src/services/notification.service.ts:20-32 | marking twice leaves the store as marking once, and emits the same message again |
| NotificationService.MarkNotificationAsRead | src/services/notification.service.ts:20-32 | the backend reaches `MarkNotificationAsReadSpec` of its old state |
| OrderService.CreateOrderEffect | src/services/order.service.ts:36-105 | the order is stored as given, then three messages follow in order: the seller's `create-order` with one ongoing job, the `orderPlaced` email to the seller and the `orderReceipt` email to the buyer (this order is the model's; see Left out), both with total = price + service fee; a taken id changes nothing |
| OrderService.CancelOrderEffect | src/services/order.service.ts:107-146 | the order is cancelled; the seller's and the buyer's `cancel-order` messages are published in that order even when no order matches; the seller is notified; a missing order is an error with no notification |
| OrderService.ApproveOrderEffect | src/services/order.service.ts:148-193 | the order is completed; the seller update (-1 ongoing, +1 completed, the earnings) and the buyer's `purchased-gigs` update are published; the seller is notified, and the outbox ends with that notification's emission with the approved order; a missing order is an error after both messages |
| OrderService.SellerDeliverOrderEffect | src/services/order.service.ts:195-235 | the orders become exactly those of the one update; the work is appended; the status is Delivered; the outbox gains exactly the `orderDelivered` email and the emission of the buyer's notification with the updated order; a missing order changes nothing and returns null |
| OrderService.RequestDeliveryExtensionEffect | src/services/order.service.ts:237-276 | the orders become exactly those of the one update; the slot holds the request; the status and the offer are unchanged; the outbox gains exactly the `orderExtension` email, which carries the stored dates, and the emission of the buyer's notification; a missing order changes nothing |
| OrderService.ApproveDeliveryDateEffect | src/services/order.service.ts:278-323 | the orders become exactly those of the one update; approval adds exactly the approved days, rewrites the offer's dates and reason and empties the slot; the outbox gains exactly one `accepted` email to the seller's address and the emission of the seller's notification; a missing order changes nothing |
| OrderService.RejectDeliveryDateEffect | src/services/order.service.ts:325-364 | the orders become exactly those of the one update; rejection only empties the slot, leaving the offer and status; the outbox gains exactly one `rejected` email to the seller's address and the emission of the seller's notification; a missing order changes nothing |
| OrderService.UpdateOrderReviewEffect | src/services/order.service.ts:366-398 | the orders become exactly those of the one update; the review lands in the slot its kind names; the opposite party is notified with "Left you a N star review"; the emission of that notification is the only outbox entry; a missing order is an error |
| OrderService.ReviewTextNamesRating | src/services/order.service.ts:395 | two review notifications have the same text exactly when they carry the same rating |
| OrderService.CreateOrder | src/services/order.service.ts:36-105 | the backend reaches `CreateOrderSpec` of its old state |
| OrderService.CancelOrder | src/services/order.service.ts:107-146 | the backend reaches `CancelOrderSpec` of its old state |
| OrderService.ApproveOrder | src/services/order.service.ts:148-193 | the backend reaches `ApproveOrderSpec` of its old state |
| OrderService.SellerDeliverOrder | src/services/order.service.ts:195-235 | the backend reaches `SellerDeliverOrderSpec` of its old state |
| OrderService.RequestDeliveryExtension | src/services/order.service.ts:237-276 | the backend reaches `RequestDeliveryExtensionSpec` of its old state |
| OrderService.ApproveDeliveryDate | src/services/order.service.ts:278-323 | the backend reaches `ApproveDeliveryDateSpec` of its old state |
| OrderService.RejectDeliveryDate | src/services/order.service.ts:325-364 | the backend reaches `RejectDeliveryDateSpec` of its old state |
| OrderService.UpdateOrderReview | src/services/order.service.ts:366-398 | the backend reaches `UpdateOrderReviewSpec` of its old state |
| CreateController.ServiceFee | src/controllers/order/create.ts:37 | the fee is at least 5.5 per cent of the price and at most that plus 2, and it is positive for a positive price |
| CreateController.ServiceFeeTiers | src/controllers/order/create.ts:35-37 | below 50 the fee is 5.5 per cent plus 2; from 50 on it is 5.5 per cent alone; the fee at 50 is 2.75 |
| CreateController.ServiceFeeExamples | src/controllers/order/create.ts:37 | the fee is 4.2 at price 40, 4.475 at 45 and 5.5 at 100 |
| CreateController.TotalDropsAtLimit | src/controllers/order/create.ts:37 | price plus fee is larger at 49 than at 50 |
| CreateController.PaymentAmount | src/controllers/order/create.ts:39 | the amount is price plus fee in cents rounded down: it is at most the exact amount and within one cent of it |
| CreateController.PaymentAmountExample | src/controllers/order/create.ts:39 | 4420 cents at price 40, and 10550 at price 100 |
| CreateController.PaymentIntentEffect | src/controllers/order/create.ts:14-51 | the customer search comes first; a customer is created exactly when none was found; the intent request follows with no call in between and goes to the created or the first found customer for `PaymentAmount` cents in usd, card payments only; with no customer id no intent exists and the reply fails; a rejected search, customer creation or intent request is the last call made and the reply is a gateway failure; the stores are untouched |
| CreateController.PaymentIntent | src/controllers/order/create.ts:14-51 | the backend reaches `PaymentIntentSpec` of its old state |
| CreateController.WithServiceFee | src/controllers/order/create.ts:59-61 | the body keeps every field except the service fee, which becomes `ServiceFee(price)` |
| CreateController.PlaceOrderEffect | src/controllers/order/create.ts:53-68 | a validation error changes nothing and is a bad request carrying the validator's first message and the `Create order() method error` origin; otherwise the order is stored with the computed fee and three messages follow |
| CreateController.PlaceOrder | src/controllers/order/create.ts:53-68 | the backend reaches `PlaceOrderSpec` of its old state |
| UpdateController.RefundBeforeCancel | src/controllers/order/update.ts:24-33 | the refund is the first call made; after a failed refund the state is the old one with only the refund call recorded, and the reply is a gateway failure; after a successful refund a stored order is cancelled |
| UpdateController.Cancel | src/controllers/order/update.ts:24-33 | the backend reaches `CancelSpec` of its old state |
| UpdateController.RequestExtensionGuard | src/controllers/order/update.ts:45-56 | a validation error changes nothing and is a bad request carrying the validator's first message and the `Update requestExtension() method error` origin; otherwise a stored order gets the requested days |
| UpdateController.RequestExtension | src/controllers/order/update.ts:45-56 | the backend reaches `RequestExtensionSpec` of its old state |
| UpdateController.DeliveryDateDispatch | src/controllers/order/update.ts:58-66 | the slot ends empty either way; the delivery days grow by the body's days exactly when the type is `approve`; the email says accepted exactly then |
| UpdateController.DeliveryDate | src/controllers/order/update.ts:58-66 | the backend reaches `DeliveryDateSpec` of its old state |
| UpdateController.DeliverOrderUploads | src/controllers/order/update.ts:68-85 | a non-empty file is uploaded first, named with `.zip` exactly for zip files; with an empty file nothing is uploaded; after a failed upload the state is the old one with only the upload recorded, and the reply is a bad request |
| UpdateController.DeliveryUploadsNothing | src/controllers/order/update.ts:97 | the delivery step only appends to the outbox, and never an upload |
| UpdateController.DeliverOrderEffect | src/controllers/order/update.ts:68-103 | unless the upload failed, the orders become exactly those of the one delivery update and the work built from the body is appended, with the body's own file, and the order is marked delivered; with no file and no such order nothing changes |
| UpdateController.UploadUrlIsDiscarded | src/controllers/order/update.ts:86-95 | two successful uploads with different URLs lead to the same state and result |
| UpdateController.DeliverOrder | src/controllers/order/update.ts:68-103 | the backend reaches `DeliverOrderSpec` of its old state |
| Lifecycle.RunEvolves | src/services/order.service.ts:36-398 | every service call, `markNotificationAsRead` (`notification.service.ts:20-32`) included, keeps the store well formed; no order is lost and each order's new version is a `Successor` of its old one; notifications only go from unread to read; the outbox only grows |
| Lifecycle.HistoryEvolves | src/services/order.service.ts:36-398 | the same holds for any sequence of service calls |
| Lifecycle.EvolvesTransitive | src/services/order.service.ts:107-398 | evolving is transitive |
| Lifecycle.PlaceDeliverApprove | src/controllers/order/create.ts:53-68 | an order placed at 45 has fee 4.475; delivered, it is Delivered with one work record; approved, it is Completed and approved with the same work and fee |
| Lifecycle.PlaceDeliverApproveOnBackend | src/controllers/order/create.ts:53-68 | the same walk through the methods on a fresh backend gives the same three answers |
| Models.NatToStringValue | src/services/order.service.ts:395 | reading the rendered digits back as a decimal number gives the number |
| Models.IntToStringValue | src/services/order.service.ts:395 | reading the rendered rating back as a signed decimal number gives the rating |

## Left out

- **I/O and broker plumbing.** The broker connection and `publishDirectMessage`'s transport are left out. So are its logging and its failures: a message is taken to be handed over once it is recorded in the outbox. `order.producer.ts` and `order.consumer.ts` (the fan-out consumer that calls `updateOrderReview`) are not part of this model.
- **Gateway and object storage internals.** Stripe and Cloudinary are modelled only by the calls made to them and by their answers, which are parameters.
- **Concurrency.** `sendNotification` is called without `await`, so its store write and socket emission may interleave with later work. The model puts them right after the operation's messages. Concurrent requests on the same order are not modelled.
- OrderService.CreateOrderEffect: the two placement emails are published together under `Promise.all` (`order.service.ts:87-102`), so their order is not guaranteed. The model records the seller's `orderPlaced` email before the buyer's `orderReceipt`, and the lemma states that order.
- **The order of query results.** The model's queries return orders in creation order and notifications in insertion order. The store gives no such guarantee. So the model states which entries are listed and how many times each, but not their order.
- **Unique order ids.** The store is assumed to reject a second order with an existing `orderId` (`DuplicateOrderId`). The schema's unique index is not part of this model.
- **Notification ids.** A notification's `_id` is modelled as its position in the collection.
- **Numbers.** Prices and fees are exact reals, not IEEE doubles; the fee examples hold exactly in the model. Ratings are integers. The formatting of amounts, dates and the `${new Date()}` recent-delivery string is not modelled: a `Timestamp` is an opaque string, and `new Date(...)` parsing is the identity.
- **`Store.Config.lowerCase`.** The shared library's `lowerCase` is a parameter, so the model states only that each email address and username goes through it.
- **Read controllers.** The read controllers (`get.ts`, the notification controller) and the routes only forward to the modelled queries.
- **The `approve` controller.** It only forwards to `approveOrder`, so it is modelled by `OrderService.ApproveOrder`.
- **Request validation.** The schema validators are not modelled. Their verdict is a parameter.
- **HTTP responses.** Response bodies and status codes are not modelled; the controllers return the service's result or the error.
- **Fields the store fills itself.** Mongoose defaults and timestamps are not modelled, except `isRead` and `createdAt` on a notification.
