/**
 * The records of the order service: the order document with its nested parts, the
 * notification document, the request bodies the operations read, the messages the
 * service publishes and the calls it makes to its collaborators.
 */
module Models {
  import opened Wrappers

  /** A date as the store keeps it: the clock reading or the text given to `new Date(...)`. */
  type Timestamp = string

  // ---------------------------------------------------------------- order document

  datatype Offer = Offer(
    gigTitle: string,
    price: real,
    description: string,
    deliveryInDays: int,
    oldDeliveryDate: string,
    newDeliveryDate: string,
    accepted: bool,
    cancelled: bool,
    reason: string)

  /** The extension-negotiation slot `requestExtension` of an order. */
  datatype Extension = Extension(originalDate: string, newDate: string, days: int, reason: string)

  /** The value both resolutions of an extension request write into the slot. */
  const EmptyExtension := Extension("", "", 0, "")

  /** The `events` timestamps this service writes. */
  datatype Events = Events(
    deliveryDateUpdate: Option<Timestamp>,
    orderDelivered: Option<Timestamp>,
    buyerReview: Option<Timestamp>,
    sellerReview: Option<Timestamp>)

  datatype DeliveredWork = DeliveredWork(
    message: string,
    file: string,
    fileType: string,
    fileSize: int,
    fileName: string)

  datatype Review = Review(rating: int, review: string, created: Timestamp)

  datatype Order = Order(
    orderId: string,
    invoiceId: string,
    sellerId: string,
    sellerUsername: string,
    sellerEmail: string,
    sellerImage: string,
    buyerId: string,
    buyerUsername: string,
    buyerEmail: string,
    buyerImage: string,
    offer: Offer,
    requirements: string,
    price: real,
    serviceFee: real,
    status: string,
    approved: bool,
    cancelled: bool,
    delivered: bool,
    approvedAt: Option<Timestamp>,
    requestExtension: Extension,
    events: Events,
    deliveredWork: seq<DeliveredWork>,
    buyerReview: Option<Review>,
    sellerReview: Option<Review>)

  const StatusCancelled := "Cancelled"
  const StatusCompleted := "Completed"
  const StatusDelivered := "Delivered"

  // ---------------------------------------------------------------- request bodies

  /** The fields of the cancel and approve request bodies the service reads. */
  datatype OrderMessage = OrderMessage(
    sellerId: string,
    buyerId: string,
    purchasedGigId: string,
    totalEarnings: real)

  /** The body of an extension request or of its approval. */
  datatype ExtendedDelivery = ExtendedDelivery(
    originalDate: string,
    newDate: string,
    days: int,
    reason: string,
    deliveryDateUpdate: Timestamp)

  /** A review event consumed from the review fan-out queue. */
  datatype ReviewMessage = ReviewMessage(
    orderId: string,
    kind: string,
    rating: int,
    review: string,
    createdAt: Timestamp)

  const BuyerReviewKind := "buyer-review"

  // ---------------------------------------------------------------- notification document

  datatype Notification = Notification(
    userTo: string,
    senderUsername: string,
    senderPicture: string,
    receiverUsername: string,
    receiverPicture: string,
    message: string,
    orderId: string,
    isRead: bool,
    createdAt: Timestamp)

  // ---------------------------------------------------------------- outbound messages

  /** The message bodies the service publishes, one variant per shape. */
  datatype Payload =
    | SellerUpdate(
        sellerId: string,
        ongoingJobs: Option<int>,
        completedJobs: Option<int>,
        totalEarnings: Option<real>,
        recentDelivery: Option<Timestamp>,
        kind: string)
    | BuyerUpdate(buyerId: string, purchasedGigId: string, kind: string)
    | OrderPlacement(
        template: string,
        orderId: string,
        invoiceId: string,
        orderDue: string,
        amount: real,
        receiverEmail: string,
        buyerUsername: string,
        sellerUsername: string,
        title: string,
        description: string,
        requirements: string,
        serviceFee: real,
        total: real,
        orderUrl: string)
    | OrderDelivered(
        template: string,
        orderId: string,
        receiverEmail: string,
        buyerUsername: string,
        sellerUsername: string,
        title: string,
        description: string,
        orderUrl: string)
    | OrderExtension(
        template: string,
        receiverEmail: string,
        buyerUsername: string,
        sellerUsername: string,
        originalDate: string,
        newDate: string,
        reason: string,
        orderUrl: string)
    | ExtensionApproval(
        template: string,
        subject: string,
        receiverEmail: string,
        buyerUsername: string,
        sellerUsername: string,
        header: string,
        kind: string,
        message: string,
        orderUrl: string)

  const SellerUpdateExchange := "jobber-seller-update"
  const SellerRoutingKey := "user-seller"
  const BuyerUpdateExchange := "jobber-buyer-update"
  const BuyerRoutingKey := "user-buyer"
  const OrderEmailExchange := "jobber-order-notification"
  const OrderEmailRoutingKey := "order-email"
  const OrderNotificationEvent := "order_notification"

  /** A call into the payment gateway. */
  datatype GatewayCall =
    | SearchCustomers(query: string)
    | CreateCustomer(email: string, buyerId: string)
    | CreatePaymentIntent(amount: int, currency: string, customer: string, methodTypes: seq<string>)
    | Refund(paymentIntent: string)

  /**
   * One entry of the outbox: everything the service hands to a collaborator, in the
   * order it does so.
   */
  datatype Effect =
    | Published(exchange: string, routingKey: string, payload: Payload)
    | Emitted(event: string, order: Option<Order>, notification: Notification)
    | Gateway(call: GatewayCall)
    | Uploaded(file: string, name: Option<string>)

  // ---------------------------------------------------------------- errors

  datatype Error =
    /** The controller's BadRequestError(message, comingFrom). */
    | BadRequest(message: string, comingFrom: string)
    /** A field read on the null that the store returns when no order matches. */
    | MissingOrder
    /** A field read on the null that the store returns when no notification matches. */
    | MissingNotification
    /** The store refuses a second order with the same orderId. */
    | DuplicateOrderId
    /** A gateway call rejected. */
    | GatewayFailure
    /** The payment intent was never created, and reading it fails. */
    | NoPaymentIntent

  datatype Result<+T> = Ok(value: T) | Err(error: Error)

  // ---------------------------------------------------------------- number formatting

  /** The decimal digits of `n`, as a template literal renders a whole number. */
  function NatToString(n: nat): (s: string)
    ensures |s| >= 1
    ensures forall i :: 0 <= i < |s| ==> '0' <= s[i] <= '9'
    ensures n < 10 <==> |s| == 1
  {
    var digit := ['0' + (n % 10) as char];
    if n < 10 then digit else NatToString(n / 10) + digit
  }

  function IntToString(i: int): (s: string)
    ensures |s| >= 1
    ensures i < 0 <==> s[0] == '-'
  {
    if i < 0 then "-" + NatToString(-i) else NatToString(i)
  }

  /** The number a string of decimal digits denotes, most significant digit first. */
  function DigitsValue(s: string): int {
    if s == [] then 0 else DigitsValue(s[..|s| - 1]) * 10 + (s[|s| - 1] as int - '0' as int)
  }

  /** A decimal number with an optional leading minus sign. */
  function SignedValue(s: string): int {
    if s != [] && s[0] == '-' then -DigitsValue(s[1..]) else DigitsValue(s)
  }

  /** Reading the rendered digits back gives the number. */
  lemma {:induction false} NatToStringValue(n: nat)
    ensures DigitsValue(NatToString(n)) == n
  {
    if n >= 10 {
      NatToStringValue(n / 10);
      var s := NatToString(n);
      assert s[..|s| - 1] == NatToString(n / 10);
    }
  }

  /** Reading the rendered signed number back gives the number, so distinct numbers render differently. */
  lemma IntToStringValue(i: int)
    ensures SignedValue(IntToString(i)) == i
  {
    if i < 0 {
      NatToStringValue(-i);
      assert IntToString(i)[1..] == NatToString(-i);
    } else {
      NatToStringValue(i);
    }
  }
}
