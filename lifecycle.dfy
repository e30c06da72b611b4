/**
 * The order lifecycle as a whole: any operation of the two services applied to the
 * store, the invariants every history of them keeps, and the placement-to-approval
 * walk through one order.
 */
module Lifecycle {
  import opened Wrappers
  import opened Models
  import opened Updates
  import opened Store
  import NotificationService
  import OrderService
  import CreateController

  /** One call into the order or the notification service. */
  datatype Request =
    | CreateReq(data: Order)
    | CancelReq(orderId: string, message: OrderMessage, now: Timestamp)
    | ApproveReq(orderId: string, message: OrderMessage, now: Timestamp)
    | DeliverReq(orderId: string, delivered: bool, work: DeliveredWork, now: Timestamp)
    | ExtensionReq(orderId: string, delivery: ExtendedDelivery, now: Timestamp)
    | ApproveDateReq(orderId: string, delivery: ExtendedDelivery, now: Timestamp)
    | RejectDateReq(orderId: string, now: Timestamp)
    | ReviewReq(review: ReviewMessage, now: Timestamp)
    | MarkReadReq(id: nat)

  function Run(s: State, cfg: Config, q: Request): State {
    match q
    case CreateReq(data) => OrderService.CreateOrderSpec(s, cfg, data).0
    case CancelReq(id, m, now) => OrderService.CancelOrderSpec(s, id, m, now).0
    case ApproveReq(id, m, now) => OrderService.ApproveOrderSpec(s, id, m, now).0
    case DeliverReq(id, d, w, now) => OrderService.SellerDeliverOrderSpec(s, cfg, id, d, w, now).0
    case ExtensionReq(id, d, now) => OrderService.RequestDeliveryExtensionSpec(s, cfg, id, d, now).0
    case ApproveDateReq(id, d, now) => OrderService.ApproveDeliveryDateSpec(s, cfg, id, d, now).0
    case RejectDateReq(id, now) => OrderService.RejectDeliveryDateSpec(s, cfg, id, now).0
    case ReviewReq(m, now) => OrderService.UpdateOrderReviewSpec(s, m, now).0
    case MarkReadReq(id) => NotificationService.MarkNotificationAsReadSpec(s, id).0
  }

  function RunAll(s: State, cfg: Config, qs: seq<Request>): State
    decreases |qs|
  {
    if qs == [] then s else RunAll(Run(s, cfg, qs[0]), cfg, qs[1..])
  }

  /**
   * What holds between any store and a later one: no order is removed and each keeps
   * its identity, amounts and delivered work; no notification is removed and each
   * changes at most from unread to read; the outbox only grows.
   */
  predicate Evolves(s: State, s': State) {
    && s.orders.Keys <= s'.orders.Keys
    && (forall k :: k in s.orders ==> Successor(s.orders[k], s'.orders[k]))
    && |s.notifications| <= |s'.notifications|
    && (forall i :: 0 <= i < |s.notifications| ==>
          && s'.notifications[i].(isRead := s.notifications[i].isRead) == s.notifications[i]
          && (s.notifications[i].isRead ==> s'.notifications[i].isRead))
    && s.outbox <= s'.outbox
  }

  lemma EvolvesTransitive(a: State, b: State, c: State)
    requires Evolves(a, b) && Evolves(b, c)
    ensures Evolves(a, c)
  {
    forall k | k in a.orders ensures Successor(a.orders[k], c.orders[k]) {
      SuccessorTransitive(a.orders[k], b.orders[k], c.orders[k]);
    }
    forall i | 0 <= i < |a.notifications|
      ensures c.notifications[i].(isRead := a.notifications[i].isRead) == a.notifications[i]
    {
      assert c.notifications[i].(isRead := b.notifications[i].isRead) == b.notifications[i];
    }
  }

  lemma EvolvesByUpdate(s: State, orderId: string, u: Update)
    ensures Evolves(s, UpdateOrder(s, orderId, u))
  {
  }

  lemma EvolvesByInsert(s: State, o: Order)
    requires o.orderId !in s.orders
    ensures Evolves(s, InsertOrder(s, o))
  {
  }

  /** Appending to the outbox and to the notification store evolves a store. */
  lemma EvolvesByAppend(s: State, s': State)
    requires s'.orders == s.orders
    requires s.notifications <= s'.notifications && s.outbox <= s'.outbox
    ensures Evolves(s, s')
  {
  }

  lemma RunEvolves(s: State, cfg: Config, q: Request)
    requires WellFormed(s)
    ensures WellFormed(Run(s, cfg, q)) && Evolves(s, Run(s, cfg, q))
  {
    match q
    case CreateReq(data) => CreateEvolves(s, cfg, data);
    case CancelReq(id, m, now) => CancelEvolves(s, cfg, id, m, now);
    case ApproveReq(id, m, now) => ApproveEvolves(s, cfg, id, m, now);
    case DeliverReq(id, d, w, now) => DeliverEvolves(s, cfg, id, d, w, now);
    case ExtensionReq(id, d, now) => ExtensionEvolves(s, cfg, id, d, now);
    case ApproveDateReq(id, d, now) => ApproveDateEvolves(s, cfg, id, d, now);
    case RejectDateReq(id, now) => RejectDateEvolves(s, cfg, id, now);
    case ReviewReq(m, now) => ReviewEvolves(s, cfg, m, now);
    case MarkReadReq(id) => MarkReadEvolves(s, cfg, id);
  }

  lemma CreateEvolves(s: State, cfg: Config, data: Order)
    requires WellFormed(s)
    ensures var s' := Run(s, cfg, CreateReq(data)); WellFormed(s') && Evolves(s, s')
  {
    if data.orderId !in s.orders {
      var s1 := InsertOrder(s, data);
      EvolvesByInsert(s, data);
      EvolvesByAppend(s1, Run(s, cfg, CreateReq(data)));
      EvolvesTransitive(s, s1, Run(s, cfg, CreateReq(data)));
    }
  }

  lemma CancelEvolves(s: State, cfg: Config, id: string, m: OrderMessage, now: Timestamp)
    requires WellFormed(s)
    ensures var s' := Run(s, cfg, CancelReq(id, m, now)); WellFormed(s') && Evolves(s, s')
  {
    ChainAfterUpdate(s, UpdateOrder(s, id, CancelSet(now)), OrderService.CancelOrderSpec(s, id, m, now).0, id, CancelSet(now));
  }

  lemma ApproveEvolves(s: State, cfg: Config, id: string, m: OrderMessage, now: Timestamp)
    requires WellFormed(s)
    ensures var s' := Run(s, cfg, ApproveReq(id, m, now)); WellFormed(s') && Evolves(s, s')
  {
    ChainAfterUpdate(s, UpdateOrder(s, id, ApproveSet(now)), OrderService.ApproveOrderSpec(s, id, m, now).0, id, ApproveSet(now));
  }

  lemma DeliverEvolves(s: State, cfg: Config, id: string, d: bool, w: DeliveredWork, now: Timestamp)
    requires WellFormed(s)
    ensures var s' := Run(s, cfg, DeliverReq(id, d, w, now)); WellFormed(s') && Evolves(s, s')
  {
    var u := DeliverSetPush(d, now, w);
    ChainAfterUpdate(s, UpdateOrder(s, id, u), OrderService.SellerDeliverOrderSpec(s, cfg, id, d, w, now).0, id, u);
  }

  lemma ExtensionEvolves(s: State, cfg: Config, id: string, d: ExtendedDelivery, now: Timestamp)
    requires WellFormed(s)
    ensures var s' := Run(s, cfg, ExtensionReq(id, d, now)); WellFormed(s') && Evolves(s, s')
  {
    var u := ExtensionRequestSet(d);
    ChainAfterUpdate(s, UpdateOrder(s, id, u), OrderService.RequestDeliveryExtensionSpec(s, cfg, id, d, now).0, id, u);
  }

  lemma ApproveDateEvolves(s: State, cfg: Config, id: string, d: ExtendedDelivery, now: Timestamp)
    requires WellFormed(s)
    ensures var s' := Run(s, cfg, ApproveDateReq(id, d, now)); WellFormed(s') && Evolves(s, s')
  {
    var u := ExtensionApprovalIncSet(d);
    ChainAfterUpdate(s, UpdateOrder(s, id, u), OrderService.ApproveDeliveryDateSpec(s, cfg, id, d, now).0, id, u);
  }

  lemma RejectDateEvolves(s: State, cfg: Config, id: string, now: Timestamp)
    requires WellFormed(s)
    ensures var s' := Run(s, cfg, RejectDateReq(id, now)); WellFormed(s') && Evolves(s, s')
  {
    var u := ExtensionRejectionSet;
    ChainAfterUpdate(s, UpdateOrder(s, id, u), OrderService.RejectDeliveryDateSpec(s, cfg, id, now).0, id, u);
  }

  lemma ReviewEvolves(s: State, cfg: Config, m: ReviewMessage, now: Timestamp)
    requires WellFormed(s)
    ensures var s' := Run(s, cfg, ReviewReq(m, now)); WellFormed(s') && Evolves(s, s')
  {
    var u := ReviewSet(m);
    ChainAfterUpdate(s, UpdateOrder(s, m.orderId, u), OrderService.UpdateOrderReviewSpec(s, m, now).0, m.orderId, u);
  }

  lemma MarkReadEvolves(s: State, cfg: Config, id: nat)
    requires WellFormed(s)
    ensures var s' := Run(s, cfg, MarkReadReq(id)); WellFormed(s') && Evolves(s, s')
  {
    var s' := NotificationService.MarkNotificationAsReadSpec(s, id).0;
    if id < |s.notifications| {
      assert s'.notifications == MarkRead(s.notifications, id);
    }
  }

  /** An update followed by appends only. */
  lemma ChainAfterUpdate(s: State, s1: State, s': State, orderId: string, u: Update)
    requires WellFormed(s) && s1 == UpdateOrder(s, orderId, u)
    requires s'.orders == s1.orders && s'.orderIds == s1.orderIds
    requires s1.notifications <= s'.notifications && s1.outbox <= s'.outbox
    ensures WellFormed(s') && Evolves(s, s')
  {
    EvolvesByUpdate(s, orderId, u);
    EvolvesByAppend(s1, s');
    EvolvesTransitive(s, s1, s');
  }

  /** Every history of service calls keeps the store well formed and evolves it. */
  lemma {:induction false} HistoryEvolves(s: State, cfg: Config, qs: seq<Request>)
    requires WellFormed(s)
    ensures WellFormed(RunAll(s, cfg, qs)) && Evolves(s, RunAll(s, cfg, qs))
    decreases |qs|
  {
    if qs == [] {
      assert RunAll(s, cfg, qs) == s;
    } else {
      var s1 := Run(s, cfg, qs[0]);
      RunEvolves(s, cfg, qs[0]);
      HistoryEvolves(s1, cfg, qs[1..]);
      EvolvesTransitive(s, s1, RunAll(s1, cfg, qs[1..]));
    }
  }

  /**
   * An order placed at price 45 carries a service fee of 4.475; delivering it makes it
   * Delivered with one delivered record; approving it then makes it Completed and approved.
   */
  lemma PlaceDeliverApprove(cfg: Config, body: Order, work: DeliveredWork, message: OrderMessage,
                            t1: Timestamp, t2: Timestamp)
    requires body.price == 45.0 && body.deliveredWork == []
    ensures var (s1, r1) := CreateController.PlaceOrderSpec(Empty, cfg, body, None);
            var (s2, r2) := OrderService.SellerDeliverOrderSpec(s1, cfg, body.orderId, true, work, t1);
            var (s3, r3) := OrderService.ApproveOrderSpec(s2, body.orderId, message, t2);
            && r1.Ok? && r1.value.serviceFee == 4.475
            && r2.Some? && r2.value.status == StatusDelivered && r2.value.deliveredWork == [work]
            && r3.Ok? && r3.value.status == StatusCompleted && r3.value.approved
            && r3.value.deliveredWork == [work] && r3.value.serviceFee == 4.475
  {
    CreateController.ServiceFeeExamples();
  }

  /** The same walk on a fresh backend, through the methods; it returns the three answers. */
  method PlaceDeliverApproveOnBackend(cfg: Config, body: Order, work: DeliveredWork, message: OrderMessage,
                                      t1: Timestamp, t2: Timestamp)
      returns (placed: Result<Order>, delivered: Option<Order>, approved: Result<Order>)
    requires body.price == 45.0 && body.deliveredWork == []
    ensures placed.Ok? && placed.value.serviceFee == 4.475
    ensures delivered.Some? && delivered.value.status == StatusDelivered && delivered.value.deliveredWork == [work]
    ensures approved.Ok? && approved.value.status == StatusCompleted && approved.value.approved
    ensures approved.value.deliveredWork == [work] && approved.value.serviceFee == 4.475
  {
    PlaceDeliverApprove(cfg, body, work, message, t1, t2);
    var b := new Backend(cfg);
    placed := CreateController.PlaceOrder(b, body, None);
    delivered := OrderService.SellerDeliverOrder(b, body.orderId, true, work, t1);
    approved := OrderService.ApproveOrder(b, body.orderId, message, t2);
  }
}
