/**
 * The notification service: building and storing a notification for one party of an
 * order, pushing it on the realtime channel, listing a user's notifications and
 * marking one as read.
 */
module NotificationService {
  import opened Wrappers
  import opened Models
  import opened Store

  /**
   * The record `sendNotification` builds. Whoever it is addressed to, the sender is
   * the seller and the receiver the buyer; `isRead` and `createdAt` are the values the
   * store fills in.
   */
  function NotificationFor(order: Order, userTo: string, message: string, now: Timestamp): Notification {
    Notification(
      userTo := userTo,
      senderUsername := order.sellerUsername,
      senderPicture := order.sellerImage,
      receiverUsername := order.buyerUsername,
      receiverPicture := order.buyerImage,
      message := message,
      orderId := order.orderId,
      isRead := false,
      createdAt := now)
  }

  /** Only `userTo` depends on the recipient; the sender and receiver fields come from the order. */
  lemma RecipientChoosesOnlyUserTo(order: Order, u1: string, u2: string, message: string, now: Timestamp)
    ensures NotificationFor(order, u1, message, now).(userTo := u2) == NotificationFor(order, u2, message, now)
    ensures var n := NotificationFor(order, u1, message, now);
            && n.userTo == u1 && n.orderId == order.orderId && n.message == message && !n.isRead
            && n.senderUsername == order.sellerUsername && n.senderPicture == order.sellerImage
            && n.receiverUsername == order.buyerUsername && n.receiverPicture == order.buyerImage
  {
  }

  /** `sendNotification`: persist the record, then emit it with the order on the realtime channel. */
  function SendNotificationSpec(s: State, order: Order, userTo: string, message: string, now: Timestamp): State {
    var n := NotificationFor(order, userTo, message, now);
    Record(AddNotification(s, n), Emitted(OrderNotificationEvent, Some(order), n))
  }

  lemma SendNotificationEffect(s: State, order: Order, userTo: string, message: string, now: Timestamp)
    ensures var s' := SendNotificationSpec(s, order, userTo, message, now);
            var n := NotificationFor(order, userTo, message, now);
            && s'.orders == s.orders && s'.orderIds == s.orderIds
            && s'.notifications == s.notifications + [n]
            && s'.outbox == s.outbox + [Emitted(OrderNotificationEvent, Some(order), s'.notifications[|s.notifications|])]
  {
  }

  /** `markNotificationAsRead`: mark, then re-emit the notification with its order (or null). */
  function MarkNotificationAsReadSpec(s: State, id: nat): (State, Result<Notification>) {
    if id < |s.notifications| then
      var s1 := s.(notifications := MarkRead(s.notifications, id));
      var n := s1.notifications[id];
      (Record(s1, Emitted(OrderNotificationEvent, GetOrderByOrderId(s1, n.orderId), n)), Ok(n))
    else
      (s, Err(MissingNotification))
  }

  /**
   * Marking sets `isRead` and nothing else, emits the marked notification with the order
   * whose id it names, and does so even when it was already read. No stored notification:
   * nothing changes.
   */
  lemma MarkAsReadEffect(s: State, id: nat)
    ensures var (s', r) := MarkNotificationAsReadSpec(s, id);
            if id < |s.notifications| then
              && r.Ok? && r.value.isRead
              && r.value.(isRead := s.notifications[id].isRead) == s.notifications[id]
              && s'.notifications == s.notifications[id := r.value]
              && s'.orders == s.orders && s'.orderIds == s.orderIds
              && s'.outbox == s.outbox + [Emitted(OrderNotificationEvent,
                                                  GetOrderByOrderId(s, r.value.orderId), r.value)]
            else
              r == Err(MissingNotification) && s' == s
  {
  }

  /**
   * Marking twice leaves the notification store as marking once, and the second call
   * emits again exactly what the first emitted.
   */
  lemma MarkAsReadIdempotent(s: State, id: nat)
    requires id < |s.notifications|
    ensures var (s1, r1) := MarkNotificationAsReadSpec(s, id);
            var (s2, r2) := MarkNotificationAsReadSpec(s1, id);
            && s2.notifications == s1.notifications && r2 == r1
            && s2.outbox == s1.outbox + [s1.outbox[|s1.outbox| - 1]]
  {
    var (s1, r1) := MarkNotificationAsReadSpec(s, id);
    assert MarkRead(s1.notifications, id) == s1.notifications;
  }

  // ---------------------------------------------------------------- the service's methods

  /** `createNotification`: store the record and return it as stored. */
  method CreateNotification(b: Backend, data: Notification) returns (stored: Notification)
    requires b.Valid()
    modifies b
    ensures b.Valid()
    ensures b.Snapshot() == AddNotification(old(b.Snapshot()), data)
    ensures stored == b.notifications[|old(b.notifications)|]
  {
    var id := b.InsertNotification(data);
    stored := b.notifications[id];
  }

  method SendNotification(b: Backend, order: Order, userTo: string, message: string, now: Timestamp)
    requires b.Valid()
    modifies b
    ensures b.Valid()
    ensures b.Snapshot() == SendNotificationSpec(old(b.Snapshot()), order, userTo, message, now)
  {
    var notification := NotificationFor(order, userTo, message, now);
    var orderNotification := CreateNotification(b, notification);
    b.Send(Emitted(OrderNotificationEvent, Some(order), orderNotification));
  }

  method MarkNotificationAsRead(b: Backend, id: nat) returns (r: Result<Notification>)
    requires b.Valid()
    modifies b
    ensures b.Valid()
    ensures (b.Snapshot(), r) == MarkNotificationAsReadSpec(old(b.Snapshot()), id)
  {
    var notification := b.SetRead(id);
    if notification.None? {
      // reading `notification.orderId` on null throws before anything is emitted
      return Err(MissingNotification);
    }
    var order := GetOrderByOrderId(b.Snapshot(), notification.value.orderId);
    b.Send(Emitted(OrderNotificationEvent, order, notification.value));
    r := Ok(notification.value);
  }
}
