/**
 * The order service: each lifecycle operation is one `findOneAndUpdate` on the order
 * with the given id, followed by the messages it publishes and the notification it
 * sends. `XSpec` states the resulting store and outbox; the method `X` performs the
 * same steps on a `Backend` and is proved to reach exactly that state.
 */
module OrderService {
  import opened Wrappers
  import opened Models
  import opened Updates
  import opened Store
  import NotificationService

  // ---------------------------------------------------------------- texts

  /** The `type` of each users-service message, and the email templates. */
  const CreateOrderKind := "create-order"
  const CancelOrderKind := "cancel-order"
  const ApproveOrderKind := "approve-order"
  const PurchasedGigsKind := "purchased-gigs"
  const OrderPlacedTemplate := "orderPlaced"
  const OrderReceiptTemplate := "orderReceipt"
  const OrderDeliveredTemplate := "orderDelivered"
  const OrderExtensionTemplate := "orderExtension"
  const ExtensionApprovalTemplate := "orderExtensionApproval"
  const AcceptedKind := "accepted"
  const RejectedKind := "rejected"

  /** The notification texts, one per lifecycle operation. */
  const CancelledText := "Cancelled your order delivery"
  const ApprovedText := "Approved your order delivery"
  const DeliveredText := "Delivered your order"
  const ExtensionRequestedText := "Requested for an order delivery date extension"
  const ExtensionApprovedText := "Approved your order delivery date extension request"
  const ExtensionRejectedText := "Rejected your order delivery date extension request"
  const ReviewTextHead := "Left you a "
  const ReviewTextTail := " star review"

  /** The subject, header and body of the two extension-decision emails. */
  const ApprovedSubject := "Congratulations: Your extension request was approved"
  const RejectedSubject := "Sorry: Your extension request was rejected"
  const ApprovedHeader := "Request Accepted"
  const RejectedHeader := "Request Rejected"
  const ApprovedBody := "You can continue working on the order"
  const RejectedBody := "Please contact the buyer for more information"

  // ---------------------------------------------------------------- message builders

  function CreateSellerMessage(data: Order): Payload {
    SellerUpdate(data.sellerId, Some(1), None, None, None, CreateOrderKind)
  }

  /** The `orderPlaced` / `orderReceipt` email of a new order, to `receiverEmail`. */
  function PlacementEmail(cfg: Config, data: Order, receiverEmail: string, template: string): Payload {
    OrderPlacement(
      template := template,
      orderId := data.orderId,
      invoiceId := data.invoiceId,
      orderDue := data.offer.newDeliveryDate,
      amount := data.price,
      receiverEmail := cfg.lowerCase(receiverEmail),
      buyerUsername := cfg.lowerCase(data.buyerUsername),
      sellerUsername := cfg.lowerCase(data.sellerUsername),
      title := data.offer.gigTitle,
      description := data.offer.description,
      requirements := data.requirements,
      serviceFee := data.serviceFee,
      total := data.price + data.serviceFee,
      orderUrl := OrderUrl(cfg, data.orderId))
  }

  function CancelSellerMessage(data: OrderMessage): Payload {
    SellerUpdate(data.sellerId, None, None, None, None, CancelOrderKind)
  }

  function CancelBuyerMessage(data: OrderMessage): Payload {
    BuyerUpdate(data.buyerId, data.purchasedGigId, CancelOrderKind)
  }

  function ApproveSellerMessage(data: OrderMessage, now: Timestamp): Payload {
    SellerUpdate(data.sellerId, Some(-1), Some(1), Some(data.totalEarnings), Some(now), ApproveOrderKind)
  }

  function ApproveBuyerMessage(data: OrderMessage): Payload {
    BuyerUpdate(data.buyerId, data.purchasedGigId, PurchasedGigsKind)
  }

  function DeliveredEmail(cfg: Config, orderId: string, order: Order): Payload {
    OrderDelivered(
      template := OrderDeliveredTemplate,
      orderId := orderId,
      receiverEmail := cfg.lowerCase(order.buyerEmail),
      buyerUsername := cfg.lowerCase(order.buyerUsername),
      sellerUsername := cfg.lowerCase(order.sellerUsername),
      title := order.offer.gigTitle,
      description := order.offer.description,
      orderUrl := OrderUrl(cfg, orderId))
  }

  function ExtensionEmail(cfg: Config, orderId: string, order: Order): Payload {
    OrderExtension(
      template := OrderExtensionTemplate,
      receiverEmail := cfg.lowerCase(order.buyerEmail),
      buyerUsername := cfg.lowerCase(order.buyerUsername),
      sellerUsername := cfg.lowerCase(order.sellerUsername),
      originalDate := order.requestExtension.originalDate,
      newDate := order.requestExtension.newDate,
      reason := order.requestExtension.reason,
      orderUrl := OrderUrl(cfg, orderId))
  }

  /** The `orderExtensionApproval` email to the seller, accepted or rejected. */
  function ExtensionDecisionEmail(cfg: Config, orderId: string, order: Order, accepted: bool): Payload {
    ExtensionApproval(
      template := ExtensionApprovalTemplate,
      subject := if accepted then ApprovedSubject else RejectedSubject,
      receiverEmail := cfg.lowerCase(order.sellerEmail),
      buyerUsername := cfg.lowerCase(order.buyerUsername),
      sellerUsername := cfg.lowerCase(order.sellerUsername),
      header := if accepted then ApprovedHeader else RejectedHeader,
      kind := if accepted then AcceptedKind else RejectedKind,
      message := if accepted then ApprovedBody else RejectedBody,
      orderUrl := OrderUrl(cfg, orderId))
  }

  /** Who hears of a review: the seller of a buyer review, the buyer of any other. */
  function ReviewRecipient(order: Order, m: ReviewMessage): string {
    if m.kind == BuyerReviewKind then order.sellerUsername else order.buyerUsername
  }

  function ReviewText(rating: int): string {
    ReviewTextHead + IntToString(rating) + ReviewTextTail
  }

  /** Two reviews notify with the same text exactly when they carry the same rating. */
  lemma ReviewTextNamesRating(a: int, b: int)
    ensures ReviewText(a) == ReviewText(b) <==> a == b
  {
    var t := ReviewText(a);
    var u := ReviewText(b);
    assert t[|ReviewTextHead|..|t| - |ReviewTextTail|] == IntToString(a);
    assert u[|ReviewTextHead|..|u| - |ReviewTextTail|] == IntToString(b);
    IntToStringValue(a);
    IntToStringValue(b);
  }

  // ---------------------------------------------------------------- operations as state transformers

  function CreateOrderSpec(s: State, cfg: Config, data: Order): (State, Result<Order>) {
    if data.orderId in s.orders then (s, Err(DuplicateOrderId))
    else
      var s1 := InsertOrder(s, data);
      var s2 := Publish(s1, SellerUpdateExchange, SellerRoutingKey, CreateSellerMessage(data));
      var s3 := Publish(s2, OrderEmailExchange, OrderEmailRoutingKey,
                        PlacementEmail(cfg, data, data.sellerEmail, OrderPlacedTemplate));
      var s4 := Publish(s3, OrderEmailExchange, OrderEmailRoutingKey,
                        PlacementEmail(cfg, data, data.buyerEmail, OrderReceiptTemplate));
      (s4, Ok(data))
  }

  function CancelOrderSpec(s: State, orderId: string, data: OrderMessage, now: Timestamp): (State, Result<Order>) {
    var s1 := UpdateOrder(s, orderId, CancelSet(now));
    var s2 := Publish(s1, SellerUpdateExchange, SellerRoutingKey, CancelSellerMessage(data));
    var s3 := Publish(s2, BuyerUpdateExchange, BuyerRoutingKey, CancelBuyerMessage(data));
    match GetOrderByOrderId(s1, orderId)
    case None => (s3, Err(MissingOrder))
    case Some(order) =>
      (NotificationService.SendNotificationSpec(s3, order, order.sellerUsername, CancelledText, now),
       Ok(order))
  }

  function ApproveOrderSpec(s: State, orderId: string, data: OrderMessage, now: Timestamp): (State, Result<Order>) {
    var s1 := UpdateOrder(s, orderId, ApproveSet(now));
    var s2 := Publish(s1, SellerUpdateExchange, SellerRoutingKey, ApproveSellerMessage(data, now));
    var s3 := Publish(s2, BuyerUpdateExchange, BuyerRoutingKey, ApproveBuyerMessage(data));
    match GetOrderByOrderId(s1, orderId)
    case None => (s3, Err(MissingOrder))
    case Some(order) =>
      (NotificationService.SendNotificationSpec(s3, order, order.sellerUsername, ApprovedText, now),
       Ok(order))
  }

  function SellerDeliverOrderSpec(s: State, cfg: Config, orderId: string, delivered: bool,
                                  work: DeliveredWork, now: Timestamp): (State, Option<Order>) {
    var s1 := UpdateOrder(s, orderId, DeliverSetPush(delivered, now, work));
    match GetOrderByOrderId(s1, orderId)
    case None => (s1, None)
    case Some(order) =>
      var s2 := Publish(s1, OrderEmailExchange, OrderEmailRoutingKey, DeliveredEmail(cfg, orderId, order));
      (NotificationService.SendNotificationSpec(s2, order, order.buyerUsername, DeliveredText, now),
       Some(order))
  }

  function RequestDeliveryExtensionSpec(s: State, cfg: Config, orderId: string, data: ExtendedDelivery,
                                        now: Timestamp): (State, Option<Order>) {
    var s1 := UpdateOrder(s, orderId, ExtensionRequestSet(data));
    match GetOrderByOrderId(s1, orderId)
    case None => (s1, None)
    case Some(order) =>
      var s2 := Publish(s1, OrderEmailExchange, OrderEmailRoutingKey, ExtensionEmail(cfg, orderId, order));
      (NotificationService.SendNotificationSpec(
         s2, order, order.buyerUsername, ExtensionRequestedText, now),
       Some(order))
  }

  function ApproveDeliveryDateSpec(s: State, cfg: Config, orderId: string, data: ExtendedDelivery,
                                   now: Timestamp): (State, Option<Order>) {
    var s1 := UpdateOrder(s, orderId, ExtensionApprovalIncSet(data));
    match GetOrderByOrderId(s1, orderId)
    case None => (s1, None)
    case Some(order) =>
      var s2 := Publish(s1, OrderEmailExchange, OrderEmailRoutingKey, ExtensionDecisionEmail(cfg, orderId, order, true));
      (NotificationService.SendNotificationSpec(
         s2, order, order.sellerUsername, ExtensionApprovedText, now),
       Some(order))
  }

  function RejectDeliveryDateSpec(s: State, cfg: Config, orderId: string, now: Timestamp): (State, Option<Order>) {
    var s1 := UpdateOrder(s, orderId, ExtensionRejectionSet);
    match GetOrderByOrderId(s1, orderId)
    case None => (s1, None)
    case Some(order) =>
      var s2 := Publish(s1, OrderEmailExchange, OrderEmailRoutingKey, ExtensionDecisionEmail(cfg, orderId, order, false));
      (NotificationService.SendNotificationSpec(
         s2, order, order.sellerUsername, ExtensionRejectedText, now),
       Some(order))
  }

  function UpdateOrderReviewSpec(s: State, m: ReviewMessage, now: Timestamp): (State, Result<Order>) {
    var s1 := UpdateOrder(s, m.orderId, ReviewSet(m));
    match GetOrderByOrderId(s1, m.orderId)
    case None => (s1, Err(MissingOrder))
    case Some(order) =>
      (NotificationService.SendNotificationSpec(s1, order, ReviewRecipient(order, m), ReviewText(m.rating), now),
       Ok(order))
  }

  // ---------------------------------------------------------------- what each operation does

  /**
   * A new order is stored as given, and exactly three messages follow: the seller's
   * ongoing-jobs increment, then the seller's and the buyer's emails, both with total
   * price plus service fee. An id already taken changes nothing.
   */
  lemma CreateOrderEffect(s: State, cfg: Config, data: Order)
    ensures var (s', r) := CreateOrderSpec(s, cfg, data);
            var k := |s.outbox|;
            if data.orderId in s.orders then s' == s && r == Err(DuplicateOrderId)
            else
              && r == Ok(data)
              && s'.orders == s.orders[data.orderId := data] && s'.notifications == s.notifications
              && |s'.outbox| == k + 3 && s'.outbox[..k] == s.outbox
              && s'.outbox[k] == Published(SellerUpdateExchange, SellerRoutingKey,
                                           SellerUpdate(data.sellerId, Some(1), None, None, None, CreateOrderKind))
              && (forall i :: k < i < k + 3 ==>
                    && s'.outbox[i].Published?
                    && s'.outbox[i].exchange == OrderEmailExchange
                    && s'.outbox[i].routingKey == OrderEmailRoutingKey
                    && s'.outbox[i].payload.OrderPlacement?
                    && s'.outbox[i].payload.total == data.price + data.serviceFee)
              && s'.outbox[k + 1].payload.template == OrderPlacedTemplate
              && s'.outbox[k + 1].payload.receiverEmail == cfg.lowerCase(data.sellerEmail)
              && s'.outbox[k + 2].payload.template == OrderReceiptTemplate
              && s'.outbox[k + 2].payload.receiverEmail == cfg.lowerCase(data.buyerEmail)
  {
  }

  /**
   * Cancel marks the order cancelled, publishes the seller and then the buyer update
   * (both `cancel-order`) whether or not the order exists, and then notifies the seller.
   */
  lemma CancelOrderEffect(s: State, orderId: string, data: OrderMessage, now: Timestamp)
    ensures var (s', r) := CancelOrderSpec(s, orderId, data, now);
            var k := |s.outbox|;
            && s'.orders == UpdateOrder(s, orderId, CancelSet(now)).orders
            && s'.orderIds == s.orderIds
            && |s'.outbox| >= k + 2 && s'.outbox[..k] == s.outbox
            && s'.outbox[k] == Published(SellerUpdateExchange, SellerRoutingKey,
                                         SellerUpdate(data.sellerId, None, None, None, None, CancelOrderKind))
            && s'.outbox[k + 1] == Published(BuyerUpdateExchange, BuyerRoutingKey,
                                             BuyerUpdate(data.buyerId, data.purchasedGigId, CancelOrderKind))
            && if orderId in s.orders then
                 var n := NotificationService.NotificationFor(
                            r.value, s.orders[orderId].sellerUsername, CancelledText, now);
                 && r == Ok(Cancel(s.orders[orderId], now))
                 && s'.notifications == s.notifications + [n]
                 && s'.outbox == s.outbox + [s'.outbox[k], s'.outbox[k + 1],
                                             Emitted(OrderNotificationEvent, Some(r.value), n)]
               else
                 r == Err(MissingOrder) && s'.orders == s.orders
                 && s'.notifications == s.notifications && |s'.outbox| == k + 2
  {
    var s1 := UpdateOrder(s, orderId, CancelSet(now));
    var s3 := Publish(Publish(s1, SellerUpdateExchange, SellerRoutingKey, CancelSellerMessage(data)),
                      BuyerUpdateExchange, BuyerRoutingKey, CancelBuyerMessage(data));
    assert s3.orders == s1.orders && s3.notifications == s.notifications && |s3.outbox| == |s.outbox| + 2;
    if orderId in s.orders {
      var order := s1.orders[orderId];
      NotificationService.SendNotificationEffect(s3, order, order.sellerUsername, CancelledText, now);
    }
  }

  /**
   * Approve marks the order completed, publishes the seller update (one ongoing job
   * less, one completed job more, the earnings) and the buyer's `purchased-gigs`
   * update, and then notifies the seller.
   */
  lemma ApproveOrderEffect(s: State, orderId: string, data: OrderMessage, now: Timestamp)
    ensures var (s', r) := ApproveOrderSpec(s, orderId, data, now);
            var k := |s.outbox|;
            && s'.orders == UpdateOrder(s, orderId, ApproveSet(now)).orders
            && |s'.outbox| >= k + 2 && s'.outbox[..k] == s.outbox
            && s'.outbox[k] == Published(SellerUpdateExchange, SellerRoutingKey,
                                         SellerUpdate(data.sellerId, Some(-1), Some(1), Some(data.totalEarnings),
                                                      Some(now), ApproveOrderKind))
            && s'.outbox[k + 1] == Published(BuyerUpdateExchange, BuyerRoutingKey,
                                             BuyerUpdate(data.buyerId, data.purchasedGigId, PurchasedGigsKind))
            && if orderId in s.orders then
                 var n := NotificationService.NotificationFor(
                            r.value, s.orders[orderId].sellerUsername, ApprovedText, now);
                 && r == Ok(Approve(s.orders[orderId], now))
                 && s'.notifications == s.notifications + [n]
                 && s'.outbox == s.outbox + [s'.outbox[k], s'.outbox[k + 1],
                                             Emitted(OrderNotificationEvent, Some(r.value), n)]
               else
                 r == Err(MissingOrder) && s'.notifications == s.notifications && |s'.outbox| == k + 2
  {
    var s1 := UpdateOrder(s, orderId, ApproveSet(now));
    var s3 := Publish(Publish(s1, SellerUpdateExchange, SellerRoutingKey, ApproveSellerMessage(data, now)),
                      BuyerUpdateExchange, BuyerRoutingKey, ApproveBuyerMessage(data));
    if orderId in s.orders {
      var order := s1.orders[orderId];
      NotificationService.SendNotificationEffect(s3, order, order.sellerUsername, ApprovedText, now);
    }
  }

  /**
   * Deliver appends the work at the end of the recorded work, sends one email to the
   * buyer and notifies the buyer. No matching order: nothing changes and null is returned.
   */
  lemma SellerDeliverOrderEffect(s: State, cfg: Config, orderId: string, delivered: bool,
                                 work: DeliveredWork, now: Timestamp)
    ensures var (s', r) := SellerDeliverOrderSpec(s, cfg, orderId, delivered, work, now);
            && s'.orders == UpdateOrder(s, orderId, DeliverSetPush(delivered, now, work)).orders
            && if orderId in s.orders then
              var before := s.orders[orderId];
              var n := NotificationService.NotificationFor(r.value, before.buyerUsername, DeliveredText, now);
              && r == Some(s'.orders[orderId])
              && r.value.status == StatusDelivered && r.value.delivered == delivered
              && |r.value.deliveredWork| == |before.deliveredWork| + 1
              && r.value.deliveredWork[..|before.deliveredWork|] == before.deliveredWork
              && r.value.deliveredWork[|before.deliveredWork|] == work
              && s'.outbox == s.outbox + [Published(OrderEmailExchange, OrderEmailRoutingKey,
                                                    DeliveredEmail(cfg, orderId, r.value)),
                                          Emitted(OrderNotificationEvent, Some(r.value), n)]
              && s'.notifications == s.notifications + [n]
            else
              r == None && s' == s
  {
    if orderId in s.orders {
      var before := s.orders[orderId];
      var s1 := UpdateOrder(s, orderId, DeliverSetPush(delivered, now, work));
      var order := s1.orders[orderId];
      assert order == Deliver(before, delivered, now, work);
      var s2 := Publish(s1, OrderEmailExchange, OrderEmailRoutingKey, DeliveredEmail(cfg, orderId, order));
      NotificationService.SendNotificationEffect(s2, order, order.buyerUsername, DeliveredText, now);
    }
  }

  /**
   * A request writes the four fields of the slot from its input, leaves the status
   * and the offer as they were, emails and notifies the buyer.
   */
  lemma RequestDeliveryExtensionEffect(s: State, cfg: Config, orderId: string, data: ExtendedDelivery, now: Timestamp)
    ensures var (s', r) := RequestDeliveryExtensionSpec(s, cfg, orderId, data, now);
            && s'.orders == UpdateOrder(s, orderId, ExtensionRequestSet(data)).orders
            && if orderId in s.orders then
              var before := s.orders[orderId];
              var n := NotificationService.NotificationFor(r.value, before.buyerUsername, ExtensionRequestedText, now);
              && r == Some(s'.orders[orderId])
              && r.value.requestExtension == Extension(data.originalDate, data.newDate, data.days, data.reason)
              && r.value.status == before.status && r.value.offer == before.offer
              && s'.outbox == s.outbox + [Published(OrderEmailExchange, OrderEmailRoutingKey,
                                                    ExtensionEmail(cfg, orderId, r.value)),
                                          Emitted(OrderNotificationEvent, Some(r.value), n)]
              && s'.outbox[|s.outbox|].payload.originalDate == data.originalDate
              && s'.notifications == s.notifications + [n]
            else
              r == None && s' == s
  {
  }

  /**
   * Approving a date adds exactly `days` to the offer's delivery days, overwrites the
   * offer's dates and reason and empties the slot; it emails and notifies the seller.
   * No matching order: nothing changes.
   */
  lemma ApproveDeliveryDateEffect(s: State, cfg: Config, orderId: string, data: ExtendedDelivery, now: Timestamp)
    ensures var (s', r) := ApproveDeliveryDateSpec(s, cfg, orderId, data, now);
            && s'.orders == UpdateOrder(s, orderId, ExtensionApprovalIncSet(data)).orders
            && if orderId in s.orders then
              var before := s.orders[orderId];
              var n := NotificationService.NotificationFor(r.value, before.sellerUsername, ExtensionApprovedText, now);
              && r == Some(s'.orders[orderId])
              && r.value.offer.deliveryInDays == before.offer.deliveryInDays + data.days
              && r.value.offer.oldDeliveryDate == data.originalDate
              && r.value.offer.newDeliveryDate == data.newDate
              && r.value.offer.reason == data.reason
              && r.value.requestExtension == EmptyExtension
              && s'.outbox == s.outbox + [Published(OrderEmailExchange, OrderEmailRoutingKey,
                                                    ExtensionDecisionEmail(cfg, orderId, r.value, true)),
                                          Emitted(OrderNotificationEvent, Some(r.value), n)]
              && s'.outbox[|s.outbox|].payload.kind == AcceptedKind
              && s'.outbox[|s.outbox|].payload.receiverEmail == cfg.lowerCase(before.sellerEmail)
              && s'.notifications == s.notifications + [n]
            else
              r == None && s' == s
  {
    if orderId in s.orders {
      var s1 := UpdateOrder(s, orderId, ExtensionApprovalIncSet(data));
      var order := s1.orders[orderId];
      var s2 := Publish(s1, OrderEmailExchange, OrderEmailRoutingKey, ExtensionDecisionEmail(cfg, orderId, order, true));
      NotificationService.SendNotificationEffect(s2, order, order.sellerUsername, ExtensionApprovedText, now);
    }
  }

  /**
   * Rejecting a date only empties the slot; it emails and notifies the seller.
   * No matching order: nothing changes.
   */
  lemma RejectDeliveryDateEffect(s: State, cfg: Config, orderId: string, now: Timestamp)
    ensures var (s', r) := RejectDeliveryDateSpec(s, cfg, orderId, now);
            && s'.orders == UpdateOrder(s, orderId, ExtensionRejectionSet).orders
            && if orderId in s.orders then
              var before := s.orders[orderId];
              var n := NotificationService.NotificationFor(r.value, before.sellerUsername, ExtensionRejectedText, now);
              && r == Some(s'.orders[orderId])
              && r.value.offer == before.offer && r.value.status == before.status
              && r.value.requestExtension == EmptyExtension
              && s'.outbox == s.outbox + [Published(OrderEmailExchange, OrderEmailRoutingKey,
                                                    ExtensionDecisionEmail(cfg, orderId, r.value, false)),
                                          Emitted(OrderNotificationEvent, Some(r.value), n)]
              && s'.outbox[|s.outbox|].payload.kind == RejectedKind
              && s'.outbox[|s.outbox|].payload.receiverEmail == cfg.lowerCase(before.sellerEmail)
              && s'.notifications == s.notifications + [n]
            else
              r == None && s' == s
  {
    if orderId in s.orders {
      var s1 := UpdateOrder(s, orderId, ExtensionRejectionSet);
      var order := s1.orders[orderId];
      var s2 := Publish(s1, OrderEmailExchange, OrderEmailRoutingKey, ExtensionDecisionEmail(cfg, orderId, order, false));
      NotificationService.SendNotificationEffect(s2, order, order.sellerUsername, ExtensionRejectedText, now);
    }
  }

  /**
   * A buyer review lands in `buyerReview` and notifies the seller; any other kind
   * lands in `sellerReview` and notifies the buyer; nothing is published.
   */
  lemma UpdateOrderReviewEffect(s: State, m: ReviewMessage, now: Timestamp)
    ensures var (s', r) := UpdateOrderReviewSpec(s, m, now);
            && s'.orders == UpdateOrder(s, m.orderId, ReviewSet(m)).orders
            && if m.orderId in s.orders then
              var before := s.orders[m.orderId];
              var recipient := if m.kind == BuyerReviewKind then before.sellerUsername else before.buyerUsername;
              var n := NotificationService.NotificationFor(
                         r.value, recipient, ReviewTextHead + IntToString(m.rating) + ReviewTextTail, now);
              && r == Ok(s'.orders[m.orderId])
              && (m.kind == BuyerReviewKind ==>
                    r.value.buyerReview == Some(Review(m.rating, m.review, m.createdAt))
                    && r.value.sellerReview == before.sellerReview)
              && (m.kind != BuyerReviewKind ==>
                    r.value.sellerReview == Some(Review(m.rating, m.review, m.createdAt))
                    && r.value.buyerReview == before.buyerReview)
              && s'.notifications == s.notifications + [n]
              && s'.outbox == s.outbox + [Emitted(OrderNotificationEvent, Some(r.value), n)]
            else
              r == Err(MissingOrder) && s' == s
  {
  }

  // ---------------------------------------------------------------- the service's methods

  method CreateOrder(b: Backend, data: Order) returns (r: Result<Order>)
    requires b.Valid()
    modifies b
    ensures b.Valid()
    ensures (b.Snapshot(), r) == CreateOrderSpec(old(b.Snapshot()), b.config, data)
  {
    var created := b.Create(data);
    if !created {
      return Err(DuplicateOrderId);
    }
    var order := data;
    b.Send(Published(SellerUpdateExchange, SellerRoutingKey, CreateSellerMessage(order)));
    b.Send(Published(OrderEmailExchange, OrderEmailRoutingKey,
                     PlacementEmail(b.config, data, order.sellerEmail, OrderPlacedTemplate)));
    b.Send(Published(OrderEmailExchange, OrderEmailRoutingKey,
                     PlacementEmail(b.config, data, order.buyerEmail, OrderReceiptTemplate)));
    r := Ok(order);
  }

  method CancelOrder(b: Backend, orderId: string, data: OrderMessage, now: Timestamp) returns (r: Result<Order>)
    requires b.Valid()
    modifies b
    ensures b.Valid()
    ensures (b.Snapshot(), r) == CancelOrderSpec(old(b.Snapshot()), orderId, data, now)
  {
    var order := b.FindOneAndUpdate(orderId, CancelSet(now));
    b.Send(Published(SellerUpdateExchange, SellerRoutingKey, CancelSellerMessage(data)));
    b.Send(Published(BuyerUpdateExchange, BuyerRoutingKey, CancelBuyerMessage(data)));
    if order.None? {
      // `order.sellerUsername` on null throws
      return Err(MissingOrder);
    }
    NotificationService.SendNotification(b, order.value, order.value.sellerUsername, CancelledText, now);
    r := Ok(order.value);
  }

  method ApproveOrder(b: Backend, orderId: string, data: OrderMessage, now: Timestamp) returns (r: Result<Order>)
    requires b.Valid()
    modifies b
    ensures b.Valid()
    ensures (b.Snapshot(), r) == ApproveOrderSpec(old(b.Snapshot()), orderId, data, now)
  {
    var order := b.FindOneAndUpdate(orderId, ApproveSet(now));
    b.Send(Published(SellerUpdateExchange, SellerRoutingKey, ApproveSellerMessage(data, now)));
    b.Send(Published(BuyerUpdateExchange, BuyerRoutingKey, ApproveBuyerMessage(data)));
    if order.None? {
      return Err(MissingOrder);
    }
    NotificationService.SendNotification(b, order.value, order.value.sellerUsername, ApprovedText, now);
    r := Ok(order.value);
  }

  method SellerDeliverOrder(b: Backend, orderId: string, delivered: bool, work: DeliveredWork, now: Timestamp)
    returns (r: Option<Order>)
    requires b.Valid()
    modifies b
    ensures b.Valid()
    ensures (b.Snapshot(), r) == SellerDeliverOrderSpec(old(b.Snapshot()), b.config, orderId, delivered, work, now)
  {
    r := b.FindOneAndUpdate(orderId, DeliverSetPush(delivered, now, work));
    ghost var s1 := b.Snapshot();
    if r.Some? {
      var order := r.value;
      var email := DeliveredEmail(b.config, orderId, order);
      b.Send(Published(OrderEmailExchange, OrderEmailRoutingKey, email));
      assert b.Snapshot() == Publish(s1, OrderEmailExchange, OrderEmailRoutingKey, email);
      NotificationService.SendNotification(b, order, order.buyerUsername, DeliveredText, now);
    }
  }

  method RequestDeliveryExtension(b: Backend, orderId: string, data: ExtendedDelivery, now: Timestamp)
    returns (r: Option<Order>)
    requires b.Valid()
    modifies b
    ensures b.Valid()
    ensures (b.Snapshot(), r) == RequestDeliveryExtensionSpec(old(b.Snapshot()), b.config, orderId, data, now)
  {
    r := b.FindOneAndUpdate(orderId, ExtensionRequestSet(data));
    ghost var s1 := b.Snapshot();
    if r.Some? {
      var order := r.value;
      var email := ExtensionEmail(b.config, orderId, order);
      b.Send(Published(OrderEmailExchange, OrderEmailRoutingKey, email));
      assert b.Snapshot() == Publish(s1, OrderEmailExchange, OrderEmailRoutingKey, email);
      NotificationService.SendNotification(b, order, order.buyerUsername,
                                           ExtensionRequestedText, now);
    }
  }

  method ApproveDeliveryDate(b: Backend, orderId: string, data: ExtendedDelivery, now: Timestamp)
    returns (r: Option<Order>)
    requires b.Valid()
    modifies b
    ensures b.Valid()
    ensures (b.Snapshot(), r) == ApproveDeliveryDateSpec(old(b.Snapshot()), b.config, orderId, data, now)
  {
    r := b.FindOneAndUpdate(orderId, ExtensionApprovalIncSet(data));
    ghost var s1 := b.Snapshot();
    if r.Some? {
      var order := r.value;
      var email := ExtensionDecisionEmail(b.config, orderId, order, true);
      b.Send(Published(OrderEmailExchange, OrderEmailRoutingKey, email));
      assert b.Snapshot() == Publish(s1, OrderEmailExchange, OrderEmailRoutingKey, email);
      NotificationService.SendNotification(b, order, order.sellerUsername,
                                           ExtensionApprovedText, now);
    }
  }

  method RejectDeliveryDate(b: Backend, orderId: string, now: Timestamp) returns (r: Option<Order>)
    requires b.Valid()
    modifies b
    ensures b.Valid()
    ensures (b.Snapshot(), r) == RejectDeliveryDateSpec(old(b.Snapshot()), b.config, orderId, now)
  {
    r := b.FindOneAndUpdate(orderId, ExtensionRejectionSet);
    ghost var s1 := b.Snapshot();
    if r.Some? {
      var order := r.value;
      var email := ExtensionDecisionEmail(b.config, orderId, order, false);
      b.Send(Published(OrderEmailExchange, OrderEmailRoutingKey, email));
      assert b.Snapshot() == Publish(s1, OrderEmailExchange, OrderEmailRoutingKey, email);
      NotificationService.SendNotification(b, order, order.sellerUsername,
                                           ExtensionRejectedText, now);
    }
  }

  method UpdateOrderReview(b: Backend, m: ReviewMessage, now: Timestamp) returns (r: Result<Order>)
    requires b.Valid()
    modifies b
    ensures b.Valid()
    ensures (b.Snapshot(), r) == UpdateOrderReviewSpec(old(b.Snapshot()), m, now)
  {
    var order := b.FindOneAndUpdate(m.orderId, ReviewSet(m));
    if order.None? {
      // reading either username on null throws before anything is stored or emitted
      return Err(MissingOrder);
    }
    var userTo := if m.kind == BuyerReviewKind then order.value.sellerUsername else order.value.buyerUsername;
    NotificationService.SendNotification(b, order.value, userTo, ReviewText(m.rating), now);
    r := Ok(order.value);
  }
}
