/**
 * The create controller: the tiered service fee, the payment-intent request to the
 * payment gateway (choosing or creating the gateway customer first), and placing an
 * order with its service fee filled in.
 */
module CreateController {
  import opened Wrappers
  import opened Models
  import opened Store
  import OrderService

  /** The error origin of a rejected order, and the currency and payment method types of every intent. */
  const CreateOrderOrigin := "Create order() method error"
  const Currency := "usd"
  const CardOnly: seq<string> := ["card"]

  /** 5.5 per cent of the price ... */
  const FeeRate: real := 0.055
  /** ... plus a fixed surcharge on orders priced strictly below the limit. */
  const SmallOrderLimit: real := 50.0
  const SmallOrderSurcharge: real := 2.0

  function ServiceFee(price: real): (fee: real)
    ensures FeeRate * price <= fee <= FeeRate * price + SmallOrderSurcharge
    ensures price > 0.0 ==> fee > 0.0
  {
    if price < SmallOrderLimit then FeeRate * price + SmallOrderSurcharge else FeeRate * price
  }

  /** The two tiers, with the limit itself in the upper one. */
  lemma ServiceFeeTiers(price: real)
    ensures price < 50.0 ==> ServiceFee(price) == 0.055 * price + 2.0
    ensures price >= 50.0 ==> ServiceFee(price) == 0.055 * price
    ensures ServiceFee(50.0) == 2.75
  {
  }

  lemma ServiceFeeExamples()
    ensures ServiceFee(40.0) == 4.2
    ensures ServiceFee(45.0) == 4.475
    ensures ServiceFee(100.0) == 5.5
  {
  }

  /** Because of the surcharge, price plus fee drops when the price reaches the limit. */
  lemma TotalDropsAtLimit()
    ensures 49.0 + ServiceFee(49.0) > 50.0 + ServiceFee(50.0)
  {
  }

  /** The payment-intent amount in cents: price plus fee, times 100, rounded down. */
  function PaymentAmount(price: real): (cents: int)
    ensures cents as real <= (price + ServiceFee(price)) * 100.0 < cents as real + 1.0
  {
    ((price + ServiceFee(price)) * 100.0).Floor
  }

  lemma PaymentAmountExample()
    ensures PaymentAmount(40.0) == 4420
    ensures PaymentAmount(100.0) == 10550
  {
  }

  /** The gateway's answer to the payment-intent request. */
  datatype Intent = Intent(clientSecret: string, id: string)

  /** Which of the handler's gateway calls, if any, the gateway rejects. */
  datatype Rejection = NoRejection | SearchRejected | CustomerRejected | IntentRejected

  /**
   * `paymentIntent`: search the gateway's customers by email; with no match create one
   * carrying the buyer id, else take the first match; with a non-empty customer id
   * create the intent for `PaymentAmount(price)` cents in usd. `found` is the search
   * result, `createdId` the id of a created customer, `intent` the gateway's reply, and
   * `rejection` the call the gateway rejects: a rejected call is made, and ends the handler.
   */
  function PaymentIntentSpec(s: State, email: string, buyerId: string, price: real, found: seq<string>,
                             createdId: string, intent: Intent, rejection: Rejection): (State, Result<Intent>) {
    var s1 := Record(s, Gateway(SearchCustomers("email:'" + email + "'")));
    if rejection == SearchRejected then (s1, Err(GatewayFailure))
    else
      var s2 := if |found| == 0 then Record(s1, Gateway(CreateCustomer(email, buyerId))) else s1;
      if |found| == 0 && rejection == CustomerRejected then (s2, Err(GatewayFailure))
      else
        var customerId := if |found| == 0 then createdId else found[0];
        if customerId != "" then
          var s3 := Record(s2, Gateway(CreatePaymentIntent(PaymentAmount(price), Currency, customerId, CardOnly)));
          if rejection == IntentRejected then (s3, Err(GatewayFailure)) else (s3, Ok(intent))
        else
          (s2, Err(NoPaymentIntent))
  }

  /**
   * The search comes first; a customer is created exactly when the search found none,
   * and the intent goes to that new customer or else to the first one found. A rejected
   * call is the last one made and the reply is a gateway failure. Neither store changes.
   */
  lemma PaymentIntentEffect(s: State, email: string, buyerId: string, price: real, found: seq<string>,
                            createdId: string, intent: Intent, rejection: Rejection)
    ensures var (s', r) := PaymentIntentSpec(s, email, buyerId, price, found, createdId, intent, rejection);
            var k := |s.outbox|;
            var search := Gateway(SearchCustomers("email:'" + email + "'"));
            var create := Gateway(CreateCustomer(email, buyerId));
            var customer := if found == [] then createdId else found[0];
            var asked := rejection != SearchRejected && !(found == [] && rejection == CustomerRejected);
            && s'.orders == s.orders && s'.orderIds == s.orderIds && s'.notifications == s.notifications
            && s'.outbox[..k] == s.outbox && s'.outbox[k] == search
            && (rejection == SearchRejected ==> s' == Record(s, search) && r == Err(GatewayFailure))
            && (rejection != SearchRejected && found == [] ==> s'.outbox[k + 1] == create)
            && (found == [] && rejection == CustomerRejected ==>
                  s' == Record(Record(s, search), create) && r == Err(GatewayFailure))
            && (found != [] ==> forall i :: k < i < |s'.outbox| ==> !s'.outbox[i].call.CreateCustomer?)
            && (asked && customer != "" ==>
                  && |s'.outbox| == k + (if found == [] then 3 else 2)
                  && s'.outbox[|s'.outbox| - 1] == Gateway(CreatePaymentIntent(PaymentAmount(price), Currency, customer, CardOnly))
                  && r == (if rejection == IntentRejected then Err(GatewayFailure) else Ok(intent)))
            && (asked && customer == "" ==> r == Err(NoPaymentIntent) && |s'.outbox| == k + (if found == [] then 2 else 1))
  {
  }

  method PaymentIntent(b: Backend, email: string, buyerId: string, price: real, found: seq<string>,
                       createdId: string, intent: Intent, rejection: Rejection) returns (r: Result<Intent>)
    requires b.Valid()
    modifies b
    ensures b.Valid()
    ensures (b.Snapshot(), r) == PaymentIntentSpec(old(b.Snapshot()), email, buyerId, price, found, createdId, intent, rejection)
  {
    b.Send(Gateway(SearchCustomers("email:'" + email + "'")));
    if rejection == SearchRejected {
      return Err(GatewayFailure);
    }
    var customerId := "";
    if |found| == 0 {
      b.Send(Gateway(CreateCustomer(email, buyerId)));
      if rejection == CustomerRejected {
        return Err(GatewayFailure);
      }
      customerId := createdId;
    } else {
      customerId := found[0];
    }
    if customerId != "" {
      var serviceFee := ServiceFee(price);
      b.Send(Gateway(CreatePaymentIntent(((price + serviceFee) * 100.0).Floor, Currency, customerId, CardOnly)));
      if rejection == IntentRejected {
        return Err(GatewayFailure);
      }
      r := Ok(intent);
    } else {
      // `paymentIntent!.client_secret` reads an unassigned variable
      r := Err(NoPaymentIntent);
    }
  }

  /** The request body with only its service fee overwritten. */
  function WithServiceFee(body: Order): (o: Order)
    ensures o.serviceFee == ServiceFee(body.price)
    ensures o.(serviceFee := body.serviceFee) == body
  {
    body.(serviceFee := ServiceFee(body.price))
  }

  /**
   * `order`: a validation failure (its first detail message) is a bad request and
   * nothing is stored or published; otherwise the body, with its service fee, is created.
   */
  function PlaceOrderSpec(s: State, cfg: Config, body: Order, validation: Option<string>): (State, Result<Order>) {
    if validation.Some? then (s, Err(BadRequest(validation.value, CreateOrderOrigin)))
    else OrderService.CreateOrderSpec(s, cfg, WithServiceFee(body))
  }

  lemma PlaceOrderEffect(s: State, cfg: Config, body: Order, validation: Option<string>)
    ensures var (s', r) := PlaceOrderSpec(s, cfg, body, validation);
            && (validation.Some? ==> s' == s && r == Err(BadRequest(validation.value, CreateOrderOrigin)))
            && (validation.None? && body.orderId !in s.orders ==>
                  && r.Ok? && s'.orders[body.orderId] == r.value
                  && r.value.serviceFee == ServiceFee(body.price)
                  && r.value.(serviceFee := body.serviceFee) == body
                  && |s'.outbox| == |s.outbox| + 3)
  {
  }

  method PlaceOrder(b: Backend, body: Order, validation: Option<string>) returns (r: Result<Order>)
    requires b.Valid()
    modifies b
    ensures b.Valid()
    ensures (b.Snapshot(), r) == PlaceOrderSpec(old(b.Snapshot()), b.config, body, validation)
  {
    if validation.Some? {
      return Err(BadRequest(validation.value, CreateOrderOrigin));
    }
    var serviceFee := ServiceFee(body.price);
    var orderData := body;
    orderData := orderData.(serviceFee := serviceFee);
    r := OrderService.CreateOrder(b, orderData);
  }
}
