/**
 * The collections the order service works on: the order collection (keyed by
 * orderId, kept with the order in which orders were created), the notification
 * collection (a notification's id is its position), and the outbox of calls made to
 * collaborators. `State` is their value; `Backend` holds them as mutable fields.
 *
 * The read queries of both services live here as well, because the notification
 * service reads orders and the order service writes notifications.
 */
module Store {
  import opened Wrappers
  import opened Models
  import opened Updates

  /** What the service takes from its configuration and from the shared library. */
  datatype Config = Config(clientUrl: string, lowerCase: string -> string)

  function OrderUrl(cfg: Config, orderId: string): string {
    cfg.clientUrl + "/orders/" + orderId + "/activities"
  }

  datatype State = State(
    orders: map<string, Order>,
    orderIds: seq<string>,
    notifications: seq<Notification>,
    outbox: seq<Effect>)

  const Empty := State(map[], [], [], [])

  /** Each order is stored under its own id, and the creation order lists every id once. */
  predicate WellFormed(s: State) {
    && (forall id :: id in s.orders ==> s.orders[id].orderId == id)
    && (forall i, j :: 0 <= i < j < |s.orderIds| ==> s.orderIds[i] != s.orderIds[j])
    && (forall id :: id in s.orderIds ==> id in s.orders)
    && (forall id :: id in s.orders ==> id in s.orderIds)
  }

  // ---------------------------------------------------------------- store primitives

  /** `OrderModel.create` of an order whose id is not yet taken. */
  function InsertOrder(s: State, o: Order): (s': State)
    requires o.orderId !in s.orders
    ensures s'.orders == s.orders[o.orderId := o] && s'.orderIds == s.orderIds + [o.orderId]
    ensures s'.notifications == s.notifications && s'.outbox == s.outbox
    ensures WellFormed(s) ==> WellFormed(s')
  {
    s.(orders := s.orders[o.orderId := o], orderIds := s.orderIds + [o.orderId])
  }

  /** `findOneAndUpdate({orderId}, u)`: the matching order, and only it, has `u` applied. */
  function UpdateOrder(s: State, orderId: string, u: Update): (s': State)
    ensures s'.orders.Keys == s.orders.Keys
    ensures orderId in s.orders ==> s'.orders[orderId] == Apply(s.orders[orderId], u)
    ensures forall k :: k in s.orders && k != orderId ==> s'.orders[k] == s.orders[k]
    ensures s'.orderIds == s.orderIds && s'.notifications == s.notifications && s'.outbox == s.outbox
    ensures WellFormed(s) ==> WellFormed(s')
  {
    if orderId in s.orders then s.(orders := s.orders[orderId := Apply(s.orders[orderId], u)]) else s
  }

  function AddNotification(s: State, n: Notification): State {
    s.(notifications := s.notifications + [n])
  }

  function Record(s: State, e: Effect): State {
    s.(outbox := s.outbox + [e])
  }

  /** `publishDirectMessage`: the message is handed to the broker. */
  function Publish(s: State, exchange: string, routingKey: string, p: Payload): State {
    Record(s, Published(exchange, routingKey, p))
  }

  // ---------------------------------------------------------------- queries

  /** `getOrderByOrderId`: the order stored under the id, or null. */
  function GetOrderByOrderId(s: State, orderId: string): (r: Option<Order>)
    ensures r.Some? <==> orderId in s.orders
    ensures r.Some? ==> r.value in s.orders.Values
    ensures WellFormed(s) && r.Some? ==> r.value.orderId == orderId
  {
    if orderId in s.orders then Some(s.orders[orderId]) else None
  }

  datatype Party = Seller | Buyer

  function PartyId(o: Order, p: Party): string {
    match p
    case Seller => o.sellerId
    case Buyer => o.buyerId
  }

  /** The orders listed by `ids` whose `party` id is `who`, in the order of `ids`. */
  function OrdersWhere(ids: seq<string>, orders: map<string, Order>, p: Party, who: string): (r: seq<Order>)
    ensures |r| <= |ids|
    ensures forall o :: o in r ==> PartyId(o, p) == who && o in orders.Values
  {
    if ids == [] then []
    else
      var rest := OrdersWhere(ids[1..], orders, p, who);
      if ids[0] in orders && PartyId(orders[ids[0]], p) == who then [orders[ids[0]]] + rest else rest
  }

  lemma {:induction false} OrdersWhereComplete(ids: seq<string>, orders: map<string, Order>, p: Party, who: string, k: string)
    requires k in ids && k in orders && PartyId(orders[k], p) == who
    ensures orders[k] in OrdersWhere(ids, orders, p, who)
  {
    if ids[0] != k {
      OrdersWhereComplete(ids[1..], orders, p, who, k);
    }
  }

  /** No element of `xs` occurs twice. */
  predicate NoDuplicates<T(==)>(xs: seq<T>) {
    forall i, j :: 0 <= i < j < |xs| ==> xs[i] != xs[j]
  }

  /** Over distinct ids, each naming an order stored under its own id, no order is listed twice. */
  lemma {:induction false} OrdersWhereDistinct(ids: seq<string>, orders: map<string, Order>, p: Party, who: string)
    requires NoDuplicates(ids)
    requires forall k :: k in orders ==> orders[k].orderId == k
    ensures forall o :: o in OrdersWhere(ids, orders, p, who) ==> o.orderId in ids
    ensures NoDuplicates(OrdersWhere(ids, orders, p, who))
  {
    if ids != [] {
      assert NoDuplicates(ids[1..]) by {
        forall i, j | 0 <= i < j < |ids[1..]| ensures ids[1..][i] != ids[1..][j] {
          assert ids[1..][i] == ids[i + 1] && ids[1..][j] == ids[j + 1];
        }
      }
      OrdersWhereDistinct(ids[1..], orders, p, who);
      var rest := OrdersWhere(ids[1..], orders, p, who);
      assert ids[0] !in ids[1..] by {
        forall j | 0 <= j < |ids[1..]| ensures ids[1..][j] != ids[0] {
          assert ids[1..][j] == ids[j + 1];
        }
      }
      forall o | o in rest ensures o.orderId in ids && o.orderId != ids[0] {
        assert o.orderId in ids[1..];
      }
      if ids[0] in orders && PartyId(orders[ids[0]], p) == who {
        var r := [orders[ids[0]]] + rest;
        forall i, j | 0 <= i < j < |r| ensures r[i] != r[j] {
          if i == 0 {
            assert r[0].orderId == ids[0];
            assert r[j] == rest[j - 1] && r[j] in rest;
          } else {
            assert r[i] == rest[i - 1] && r[j] == rest[j - 1];
            assert rest[i - 1] != rest[j - 1];
          }
        }
        assert NoDuplicates(r);
      }
    }
  }

  function OrdersOf(s: State, p: Party, who: string): (r: seq<Order>)
    ensures WellFormed(s) ==> forall o :: o in r <==> o in s.orders.Values && PartyId(o, p) == who
    ensures WellFormed(s) ==> forall i, j :: 0 <= i < j < |r| ==> r[i] != r[j]
  {
    var r := OrdersWhere(s.orderIds, s.orders, p, who);
    assert WellFormed(s) ==> NoDuplicates(r) by {
      if WellFormed(s) {
        OrdersWhereDistinct(s.orderIds, s.orders, p, who);
      }
    }
    assert WellFormed(s) ==> forall o :: o in s.orders.Values && PartyId(o, p) == who ==> o in r by {
      if WellFormed(s) {
        forall o | o in s.orders.Values && PartyId(o, p) == who ensures o in r {
          var k :| k in s.orders && s.orders[k] == o;
          OrdersWhereComplete(s.orderIds, s.orders, p, who, k);
        }
      }
    }
    r
  }

  /** `getOrdersBySellerId`: exactly the stored orders of that seller, each once. */
  function GetOrdersBySellerId(s: State, sellerId: string): (r: seq<Order>)
    ensures WellFormed(s) ==> forall o :: o in r <==> o in s.orders.Values && o.sellerId == sellerId
    ensures WellFormed(s) ==> forall i, j :: 0 <= i < j < |r| ==> r[i] != r[j]
  {
    OrdersOf(s, Seller, sellerId)
  }

  /** `getOrdersByBuyerId`: exactly the stored orders of that buyer, each once. */
  function GetOrdersByBuyerId(s: State, buyerId: string): (r: seq<Order>)
    ensures WellFormed(s) ==> forall o :: o in r <==> o in s.orders.Values && o.buyerId == buyerId
    ensures WellFormed(s) ==> forall i, j :: 0 <= i < j < |r| ==> r[i] != r[j]
  {
    OrdersOf(s, Buyer, buyerId)
  }

  /**
   * The notifications of `ns` addressed to `userTo`, in store order: each one as often
   * as it is stored, and no other.
   */
  function NotificationsTo(ns: seq<Notification>, userTo: string): (r: seq<Notification>)
    ensures |r| <= |ns|
    ensures forall n :: n in r <==> n in ns && n.userTo == userTo
    ensures forall n :: multiset(r)[n] == if n.userTo == userTo then multiset(ns)[n] else 0
  {
    if ns == [] then []
    else
      var rest := NotificationsTo(ns[1..], userTo);
      assert ns == [ns[0]] + ns[1..];
      assert multiset(ns) == multiset([ns[0]]) + multiset(ns[1..]);
      assert forall n :: n in ns <==> n == ns[0] || n in ns[1..];
      if ns[0].userTo == userTo then
        assert multiset([ns[0]] + rest) == multiset([ns[0]]) + multiset(rest);
        [ns[0]] + rest
      else rest
  }

  /** `getNotificationsById`: the stored notifications whose recipient is `userTo`, each as often as stored. */
  function GetNotificationsById(s: State, userTo: string): (r: seq<Notification>)
    ensures forall n :: n in r <==> n in s.notifications && n.userTo == userTo
    ensures forall n :: multiset(r)[n] == if n.userTo == userTo then multiset(s.notifications)[n] else 0
  {
    NotificationsTo(s.notifications, userTo)
  }

  /** The notification store after `markNotificationAsRead`'s `$set: { isRead: true }`. */
  function MarkRead(ns: seq<Notification>, id: nat): (r: seq<Notification>)
    ensures |r| == |ns|
    ensures forall i :: 0 <= i < |ns| && i != id ==> r[i] == ns[i]
    ensures id < |ns| ==> r[id].isRead && r[id].(isRead := ns[id].isRead) == ns[id]
  {
    if id < |ns| then ns[id := ns[id].(isRead := true)] else ns
  }

  // ---------------------------------------------------------------- the mutable store

  class Backend {
    var orders: map<string, Order>
    var orderIds: seq<string>
    var notifications: seq<Notification>
    var outbox: seq<Effect>
    const config: Config

    function Snapshot(): State
      reads this
    {
      State(orders, orderIds, notifications, outbox)
    }

    ghost predicate Valid()
      reads this
    {
      WellFormed(Snapshot())
    }

    constructor (config: Config)
      ensures Valid() && Snapshot() == Empty && this.config == config
    {
      orders, orderIds, notifications, outbox := map[], [], [], [];
      this.config := config;
    }

    /** `OrderModel.create`; false when an order with that id is already stored. */
    method Create(o: Order) returns (created: bool)
      requires Valid()
      modifies this
      ensures Valid()
      ensures created == (o.orderId !in old(orders))
      ensures Snapshot() == if created then InsertOrder(old(Snapshot()), o) else old(Snapshot())
    {
      created := o.orderId !in orders;
      if created {
        orders := orders[o.orderId := o];
        orderIds := orderIds + [o.orderId];
      }
    }

    /** `findOneAndUpdate(..., { new: true })`: the updated order, or null. */
    method FindOneAndUpdate(orderId: string, u: Update) returns (r: Option<Order>)
      requires Valid()
      modifies this
      ensures Valid()
      ensures Snapshot() == UpdateOrder(old(Snapshot()), orderId, u)
      ensures r == GetOrderByOrderId(Snapshot(), orderId)
    {
      if orderId in orders {
        var updated := Apply(orders[orderId], u);
        orders := orders[orderId := updated];
        r := Some(updated);
      } else {
        r := None;
      }
    }

    /** `OrderNotificationModel.create`: the notification gets the next position as its id. */
    method InsertNotification(n: Notification) returns (id: nat)
      requires Valid()
      modifies this
      ensures Valid()
      ensures Snapshot() == AddNotification(old(Snapshot()), n)
      ensures id == |old(notifications)|
    {
      id := |notifications|;
      notifications := notifications + [n];
    }

    /** `findOneAndUpdate({ _id }, { $set: { isRead: true } }, { new: true })` on notifications. */
    method SetRead(id: nat) returns (r: Option<Notification>)
      requires Valid()
      modifies this
      ensures Valid()
      ensures Snapshot() == old(Snapshot()).(notifications := MarkRead(old(notifications), id))
      ensures r == if id < |notifications| then Some(notifications[id]) else None
    {
      if id < |notifications| {
        notifications := notifications[id := notifications[id].(isRead := true)];
        r := Some(notifications[id]);
      } else {
        r := None;
      }
    }

    /** Hands one call to a collaborator. */
    method Send(e: Effect)
      requires Valid()
      modifies this
      ensures Valid()
      ensures Snapshot() == Record(old(Snapshot()), e)
    {
      outbox := outbox + [e];
    }
  }
}
