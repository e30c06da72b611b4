/**
 * The update documents that the order service passes to the store's
 * `findOneAndUpdate`: each one a fixed set of `$set`, `$inc` and `$push` operations
 * on the fields of one order. `Apply` is what the store does with one of them.
 */
module Updates {
  import opened Wrappers
  import opened Models

  datatype Update =
    | CancelSet(now: Timestamp)
    | ApproveSet(now: Timestamp)
    | DeliverSetPush(delivered: bool, now: Timestamp, work: DeliveredWork)
    | ExtensionRequestSet(request: ExtendedDelivery)
    | ExtensionApprovalIncSet(approval: ExtendedDelivery)
    | ExtensionRejectionSet
    | ReviewSet(review: ReviewMessage)

  /**
   * What no update changes: the identity of the order and of its two parties, the
   * amounts fixed when it was placed, and the delivered work already recorded.
   */
  predicate Successor(o: Order, r: Order) {
    && r.orderId == o.orderId
    && r.invoiceId == o.invoiceId
    && r.sellerId == o.sellerId
    && r.sellerUsername == o.sellerUsername
    && r.sellerEmail == o.sellerEmail
    && r.buyerId == o.buyerId
    && r.buyerUsername == o.buyerUsername
    && r.buyerEmail == o.buyerEmail
    && r.price == o.price
    && r.serviceFee == o.serviceFee
    && r.requirements == o.requirements
    && o.deliveredWork <= r.deliveredWork
  }

  /** `cancelOrder`: `$set` cancelled, status and approvedAt. */
  function Cancel(o: Order, now: Timestamp): (r: Order)
    ensures r.cancelled && r.status == StatusCancelled && r.approvedAt == Some(now)
    ensures r.(cancelled := o.cancelled, status := o.status, approvedAt := o.approvedAt) == o
  {
    o.(cancelled := true, status := StatusCancelled, approvedAt := Some(now))
  }

  /** `approveOrder`: `$set` approved, status and approvedAt. */
  function Approve(o: Order, now: Timestamp): (r: Order)
    ensures r.approved && r.status == StatusCompleted && r.approvedAt == Some(now)
    ensures r.(approved := o.approved, status := o.status, approvedAt := o.approvedAt) == o
  {
    o.(approved := true, status := StatusCompleted, approvedAt := Some(now))
  }

  /** `sellerDeliverOrder`: `$set` delivered, status, events.orderDelivered; `$push` deliveredWork. */
  function Deliver(o: Order, delivered: bool, now: Timestamp, work: DeliveredWork): (r: Order)
    ensures r.status == StatusDelivered && r.delivered == delivered
    ensures r.events.orderDelivered == Some(now)
    ensures r.events.(orderDelivered := o.events.orderDelivered) == o.events
    ensures |r.deliveredWork| == |o.deliveredWork| + 1
    ensures r.deliveredWork[..|o.deliveredWork|] == o.deliveredWork
    ensures r.deliveredWork[|o.deliveredWork|] == work
    ensures r.(delivered := o.delivered, status := o.status, events := o.events,
               deliveredWork := o.deliveredWork) == o
  {
    o.(delivered := delivered, status := StatusDelivered,
       events := o.events.(orderDelivered := Some(now)),
       deliveredWork := o.deliveredWork + [work])
  }

  /** `requestDeliveryExtension`: `$set` the four fields of requestExtension. */
  function RequestExtension(o: Order, d: ExtendedDelivery): (r: Order)
    ensures r.requestExtension.originalDate == d.originalDate
    ensures r.requestExtension.newDate == d.newDate
    ensures r.requestExtension.days == d.days
    ensures r.requestExtension.reason == d.reason
    ensures r.(requestExtension := o.requestExtension) == o
  {
    o.(requestExtension := Extension(d.originalDate, d.newDate, d.days, d.reason))
  }

  /**
   * `approveDeliveryDate`: `$inc` offer.deliveryInDays, `$set` three offer fields,
   * events.deliveryDateUpdate, and the whole requestExtension slot.
   */
  function ApproveExtension(o: Order, d: ExtendedDelivery): (r: Order)
    ensures r.offer.deliveryInDays == o.offer.deliveryInDays + d.days
    ensures r.offer.oldDeliveryDate == d.originalDate
    ensures r.offer.newDeliveryDate == d.newDate
    ensures r.offer.reason == d.reason
    ensures r.offer.(deliveryInDays := o.offer.deliveryInDays, oldDeliveryDate := o.offer.oldDeliveryDate,
                     newDeliveryDate := o.offer.newDeliveryDate, reason := o.offer.reason) == o.offer
    ensures r.events.deliveryDateUpdate == Some(d.deliveryDateUpdate)
    ensures r.events.(deliveryDateUpdate := o.events.deliveryDateUpdate) == o.events
    ensures r.requestExtension == EmptyExtension
    ensures r.(offer := o.offer, events := o.events, requestExtension := o.requestExtension) == o
  {
    o.(offer := o.offer.(deliveryInDays := o.offer.deliveryInDays + d.days,
                         oldDeliveryDate := d.originalDate,
                         newDeliveryDate := d.newDate,
                         reason := d.reason),
       events := o.events.(deliveryDateUpdate := Some(d.deliveryDateUpdate)),
       requestExtension := EmptyExtension)
  }

  /** `rejectDeliveryDate`: `$set` the whole requestExtension slot, and nothing else. */
  function RejectExtension(o: Order): (r: Order)
    ensures r.requestExtension == EmptyExtension
    ensures r.offer == o.offer && r.status == o.status
    ensures r.(requestExtension := o.requestExtension) == o
  {
    o.(requestExtension := EmptyExtension)
  }

  /**
   * `updateOrderReview`: a buyer review sets buyerReview and events.buyerReview;
   * every other kind sets sellerReview and events.sellerReview.
   */
  function AttachReview(o: Order, m: ReviewMessage): (r: Order)
    ensures m.kind == BuyerReviewKind ==>
              && r.buyerReview == Some(Review(m.rating, m.review, m.createdAt))
              && r.events == o.events.(buyerReview := Some(m.createdAt))
              && r.(buyerReview := o.buyerReview, events := o.events) == o
    ensures m.kind != BuyerReviewKind ==>
              && r.sellerReview == Some(Review(m.rating, m.review, m.createdAt))
              && r.events == o.events.(sellerReview := Some(m.createdAt))
              && r.(sellerReview := o.sellerReview, events := o.events) == o
  {
    var review := Review(m.rating, m.review, m.createdAt);
    if m.kind == BuyerReviewKind then
      o.(buyerReview := Some(review), events := o.events.(buyerReview := Some(m.createdAt)))
    else
      o.(sellerReview := Some(review), events := o.events.(sellerReview := Some(m.createdAt)))
  }

  /** The store's application of an update document to the matching order. */
  function Apply(o: Order, u: Update): (r: Order)
    ensures Successor(o, r)
  {
    match u
    case CancelSet(now) => Cancel(o, now)
    case ApproveSet(now) => Approve(o, now)
    case DeliverSetPush(delivered, now, work) => Deliver(o, delivered, now, work)
    case ExtensionRequestSet(d) => RequestExtension(o, d)
    case ExtensionApprovalIncSet(d) => ApproveExtension(o, d)
    case ExtensionRejectionSet => RejectExtension(o)
    case ReviewSet(m) => AttachReview(o, m)
  }

  /** The order after a history of updates, oldest first. */
  function ApplyAll(o: Order, us: seq<Update>): Order
    decreases |us|
  {
    if us == [] then o else ApplyAll(Apply(o, us[0]), us[1..])
  }

  lemma SuccessorTransitive(a: Order, b: Order, c: Order)
    requires Successor(a, b) && Successor(b, c)
    ensures Successor(a, c)
  {
  }

  /** However many updates an order goes through, its identity, amounts and delivered work survive. */
  lemma {:induction false} HistoryIsSuccessor(o: Order, us: seq<Update>)
    ensures Successor(o, ApplyAll(o, us))
    decreases |us|
  {
    if us != [] {
      HistoryIsSuccessor(Apply(o, us[0]), us[1..]);
      SuccessorTransitive(o, Apply(o, us[0]), ApplyAll(Apply(o, us[0]), us[1..]));
    }
  }

  /** Cancelling twice with the same clock reading leaves the order as cancelling once. */
  lemma CancelIdempotent(o: Order, now: Timestamp)
    ensures Cancel(Cancel(o, now), now) == Cancel(o, now)
  {
  }

  /** Two deliveries append both records, in order, after the earlier ones. */
  lemma DeliverTwice(o: Order, t1: Timestamp, w1: DeliveredWork, t2: Timestamp, w2: DeliveredWork)
    ensures Deliver(Deliver(o, true, t1, w1), true, t2, w2).deliveredWork == o.deliveredWork + [w1, w2]
  {
    assert o.deliveredWork + [w1] + [w2] == o.deliveredWork + [w1, w2];
  }

  /** Rejecting a request leaves the order as rejecting without any request made. */
  lemma RejectForgetsRequest(o: Order, d: ExtendedDelivery)
    ensures RejectExtension(RequestExtension(o, d)) == RejectExtension(o)
  {
  }

  /**
   * Approving adds the days named in the approval body, not the days stored by the
   * request that is being approved.
   */
  lemma ApprovalAddsApprovedDays(o: Order, request: ExtendedDelivery, approval: ExtendedDelivery)
    ensures ApproveExtension(RequestExtension(o, request), approval).offer.deliveryInDays
            == o.offer.deliveryInDays + approval.days
  {
  }

  /** No update looks at the status: a cancelled order can still be delivered or completed. */
  lemma StatusIsNotGuarded(o: Order, t: Timestamp, w: DeliveredWork)
    ensures Apply(Apply(o, CancelSet(t)), DeliverSetPush(true, t, w)).status == StatusDelivered
    ensures Apply(Apply(o, CancelSet(t)), ApproveSet(t)).status == StatusCompleted
  {
  }

  /** A buyer review never touches the seller review, and a seller review never the buyer review. */
  lemma ReviewsAreSeparate(o: Order, m: ReviewMessage)
    ensures m.kind == BuyerReviewKind ==> AttachReview(o, m).sellerReview == o.sellerReview
    ensures m.kind != BuyerReviewKind ==> AttachReview(o, m).buyerReview == o.buyerReview
  {
  }
}
