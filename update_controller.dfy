/**
 * The update controller: cancel (refund first), extension request (validated first),
 * extension resolution (dispatched on the route's type) and delivery (file uploaded
 * first, the delivered-work record built from the request body).
 */
module UpdateController {
  import opened Wrappers
  import opened Models
  import opened Store
  import OrderService
  import Updates

  /** The error texts, the route type that approves, and the archive type. */
  const RequestExtensionOrigin := "Update requestExtension() method error"
  const UploadError := "File upload error. Try again"
  const DeliverOrderOrigin := "Update deliveryOrder() method error"
  const ApproveRouteType := "approve"
  const ZipType := "zip"
  const ZipSuffix := ".zip"

  // ---------------------------------------------------------------- cancel

  /**
   * `cancel`: ask the gateway to refund the payment intent, and only once that has
   * succeeded cancel the order. `refunded` is the gateway's verdict.
   */
  function CancelSpec(s: State, orderId: string, paymentIntentId: string, data: OrderMessage,
                      refunded: bool, now: Timestamp): (State, Result<Order>) {
    var s1 := Record(s, Gateway(Refund(paymentIntentId)));
    if !refunded then (s1, Err(GatewayFailure))
    else OrderService.CancelOrderSpec(s1, orderId, data, now)
  }

  /**
   * The refund is the first call made; when it fails, the refund attempt is all that
   * happens: no order, notification or message changes.
   */
  lemma RefundBeforeCancel(s: State, orderId: string, paymentIntentId: string, data: OrderMessage,
                           refunded: bool, now: Timestamp)
    ensures var (s', r) := CancelSpec(s, orderId, paymentIntentId, data, refunded, now);
            && |s'.outbox| > |s.outbox| && s'.outbox[..|s.outbox|] == s.outbox
            && s'.outbox[|s.outbox|] == Gateway(Refund(paymentIntentId))
            && (!refunded ==> s' == Record(s, Gateway(Refund(paymentIntentId))) && r == Err(GatewayFailure))
            && (refunded && orderId in s.orders ==> s'.orders[orderId].status == StatusCancelled && r.Ok?)
  {
    var s1 := Record(s, Gateway(Refund(paymentIntentId)));
    OrderService.CancelOrderEffect(s1, orderId, data, now);
  }

  method Cancel(b: Backend, orderId: string, paymentIntentId: string, data: OrderMessage,
                refunded: bool, now: Timestamp) returns (r: Result<Order>)
    requires b.Valid()
    modifies b
    ensures b.Valid()
    ensures (b.Snapshot(), r) == CancelSpec(old(b.Snapshot()), orderId, paymentIntentId, data, refunded, now)
  {
    b.Send(Gateway(Refund(paymentIntentId)));
    if !refunded {
      return Err(GatewayFailure);
    }
    r := OrderService.CancelOrder(b, orderId, data, now);
  }

  // ---------------------------------------------------------------- request extension

  /** `requestExtension`: a validation failure is a bad request; nothing is updated. */
  function RequestExtensionSpec(s: State, cfg: Config, orderId: string, body: ExtendedDelivery,
                                validation: Option<string>, now: Timestamp): (State, Result<Option<Order>>) {
    if validation.Some? then
      (s, Err(BadRequest(validation.value, RequestExtensionOrigin)))
    else
      var (s', r) := OrderService.RequestDeliveryExtensionSpec(s, cfg, orderId, body, now);
      (s', Ok(r))
  }

  lemma RequestExtensionGuard(s: State, cfg: Config, orderId: string, body: ExtendedDelivery,
                              validation: Option<string>, now: Timestamp)
    ensures var (s', r) := RequestExtensionSpec(s, cfg, orderId, body, validation, now);
            && (validation.Some? ==> s' == s && r == Err(BadRequest(validation.value, RequestExtensionOrigin)))
            && (validation.None? && orderId in s.orders ==>
                  r.Ok? && r.value.Some? && r.value.value.requestExtension.days == body.days)
  {
  }

  method RequestExtension(b: Backend, orderId: string, body: ExtendedDelivery,
                          validation: Option<string>, now: Timestamp) returns (r: Result<Option<Order>>)
    requires b.Valid()
    modifies b
    ensures b.Valid()
    ensures (b.Snapshot(), r) == RequestExtensionSpec(old(b.Snapshot()), b.config, orderId, body, validation, now)
  {
    if validation.Some? {
      return Err(BadRequest(validation.value, RequestExtensionOrigin));
    }
    var order := OrderService.RequestDeliveryExtension(b, orderId, body, now);
    r := Ok(order);
  }

  // ---------------------------------------------------------------- resolve extension

  /** `deliveryDate`: the route type `approve` approves; every other type rejects. */
  function DeliveryDateSpec(s: State, cfg: Config, kind: string, orderId: string, body: ExtendedDelivery,
                            now: Timestamp): (State, Option<Order>) {
    if kind == ApproveRouteType then OrderService.ApproveDeliveryDateSpec(s, cfg, orderId, body, now)
    else OrderService.RejectDeliveryDateSpec(s, cfg, orderId, now)
  }

  /**
   * Either way the request slot ends empty; the delivery days grow by the body's days
   * exactly when the type is `approve`, and the email says accepted exactly then.
   */
  lemma DeliveryDateDispatch(s: State, cfg: Config, kind: string, orderId: string, body: ExtendedDelivery,
                             now: Timestamp)
    requires orderId in s.orders
    ensures var (s', r) := DeliveryDateSpec(s, cfg, kind, orderId, body, now);
            && r.Some? && r.value.requestExtension == EmptyExtension
            && r.value.offer.deliveryInDays
               == s.orders[orderId].offer.deliveryInDays + (if kind == ApproveRouteType then body.days else 0)
            && (s'.outbox[|s.outbox|].payload.kind == OrderService.AcceptedKind <==> kind == ApproveRouteType)
  {
    OrderService.ApproveDeliveryDateEffect(s, cfg, orderId, body, now);
    OrderService.RejectDeliveryDateEffect(s, cfg, orderId, now);
  }

  method DeliveryDate(b: Backend, kind: string, orderId: string, body: ExtendedDelivery, now: Timestamp)
    returns (r: Option<Order>)
    requires b.Valid()
    modifies b
    ensures b.Valid()
    ensures (b.Snapshot(), r) == DeliveryDateSpec(old(b.Snapshot()), b.config, kind, orderId, body, now)
  {
    if kind == ApproveRouteType {
      r := OrderService.ApproveDeliveryDate(b, orderId, body, now);
    } else {
      r := OrderService.RejectDeliveryDate(b, orderId, now);
    }
  }

  // ---------------------------------------------------------------- deliver

  /** The fields of the deliver request body. */
  datatype DeliveryBody = DeliveryBody(message: string, file: string, fileType: string, fileSize: int, fileName: string)

  /** The object storage's answer to an upload; an empty `publicId` signals failure. */
  datatype UploadResult = UploadResult(publicId: string, secureUrl: string)

  /** The record appended to the order: copied from the body, with the body's own `file`. */
  function DeliveredWorkFrom(body: DeliveryBody): DeliveredWork {
    DeliveredWork(body.message, body.file, body.fileType, body.fileSize, body.fileName)
  }

  /** The name given to the upload: a random hex name with `.zip` for zip files, else none. */
  function UploadName(body: DeliveryBody, randomName: string): Option<string> {
    if body.fileType == ZipType then Some(randomName + ZipSuffix) else None
  }

  /**
   * `deliverOrder`: a non-empty file is uploaded first, and a failed upload is a bad
   * request with no update; then the work is delivered with `delivered = true`.
   */
  function DeliverOrderSpec(s: State, cfg: Config, orderId: string, body: DeliveryBody, randomName: string,
                            upload: UploadResult, now: Timestamp): (State, Result<Option<Order>>) {
    var s1 := if body.file != "" then Record(s, Uploaded(body.file, UploadName(body, randomName))) else s;
    if body.file != "" && upload.publicId == "" then
      (s1, Err(BadRequest(UploadError, DeliverOrderOrigin)))
    else
      var (s', r) := OrderService.SellerDeliverOrderSpec(s1, cfg, orderId, true, DeliveredWorkFrom(body), now);
      (s', Ok(r))
  }

  /**
   * A non-empty file is uploaded first, under the zip name when it is a zip; a failed
   * upload is all that happens. With no file nothing is uploaded at all.
   */
  lemma DeliverOrderUploads(s: State, cfg: Config, orderId: string, body: DeliveryBody, randomName: string,
                            upload: UploadResult, now: Timestamp)
    ensures var (s', r) := DeliverOrderSpec(s, cfg, orderId, body, randomName, upload, now);
            && |s'.outbox| >= |s.outbox| && s'.outbox[..|s.outbox|] == s.outbox
            && (body.file != "" ==>
                  |s'.outbox| > |s.outbox|
                  && s'.outbox[|s.outbox|] == Uploaded(body.file, if body.fileType == ZipType then Some(randomName + ZipSuffix) else None))
            && (body.file == "" ==> forall i :: |s.outbox| <= i < |s'.outbox| ==> !s'.outbox[i].Uploaded?)
            && (body.file != "" && upload.publicId == "" ==>
                  s' == Record(s, Uploaded(body.file, UploadName(body, randomName)))
                  && r == Err(BadRequest(UploadError, DeliverOrderOrigin)))
  {
    var work := DeliveredWorkFrom(body);
    if body.file == "" {
      DeliveryUploadsNothing(s, cfg, orderId, work, now);
    } else if upload.publicId != "" {
      var s1 := Record(s, Uploaded(body.file, UploadName(body, randomName)));
      DeliveryUploadsNothing(s1, cfg, orderId, work, now);
      var s' := OrderService.SellerDeliverOrderSpec(s1, cfg, orderId, true, work, now).0;
      assert s'.outbox[..|s.outbox|] == s1.outbox[..|s.outbox|];
    }
  }

  /** The delivery proper only appends to the outbox, and never an upload. */
  lemma DeliveryUploadsNothing(s: State, cfg: Config, orderId: string, work: DeliveredWork, now: Timestamp)
    ensures var s' := OrderService.SellerDeliverOrderSpec(s, cfg, orderId, true, work, now).0;
            && |s'.outbox| >= |s.outbox| && s'.outbox[..|s.outbox|] == s.outbox
            && forall i :: |s.outbox| <= i < |s'.outbox| ==> !s'.outbox[i].Uploaded?
  {
    OrderService.SellerDeliverOrderEffect(s, cfg, orderId, true, work, now);
  }

  /**
   * Without a failed upload the work is delivered: the record built from the body is
   * appended and the order returned; with no file and no such order nothing changes.
   */
  lemma DeliverOrderEffect(s: State, cfg: Config, orderId: string, body: DeliveryBody, randomName: string,
                           upload: UploadResult, now: Timestamp)
    ensures var (s', r) := DeliverOrderSpec(s, cfg, orderId, body, randomName, upload, now);
            && (body.file == "" && orderId !in s.orders ==> s' == s && r == Ok(None))
            && ((body.file == "" || upload.publicId != "") ==>
                  s'.orders == UpdateOrder(s, orderId, Updates.DeliverSetPush(true, now, DeliveredWorkFrom(body))).orders)
            && ((body.file == "" || upload.publicId != "") && orderId in s.orders ==>
                  var work := s'.orders[orderId].deliveredWork;
                  && r == Ok(Some(s'.orders[orderId]))
                  && s'.orders[orderId].delivered
                  && work == s.orders[orderId].deliveredWork + [DeliveredWorkFrom(body)]
                  && work[|work| - 1].file == body.file)
  {
    var s1 := if body.file != "" then Record(s, Uploaded(body.file, UploadName(body, randomName))) else s;
    if body.file == "" || upload.publicId != "" {
      var work := DeliveredWorkFrom(body);
      OrderService.SellerDeliverOrderEffect(s1, cfg, orderId, true, work, now);
      if orderId in s.orders {
        var (s', r) := OrderService.SellerDeliverOrderSpec(s1, cfg, orderId, true, work, now);
        var w := s.orders[orderId].deliveredWork;
        assert s'.orders[orderId].deliveredWork == w + [work];
      }
    }
  }

  /** The URL of a successful upload plays no part: the stored record keeps the raw file. */
  lemma UploadUrlIsDiscarded(s: State, cfg: Config, orderId: string, body: DeliveryBody, randomName: string,
                             u1: UploadResult, u2: UploadResult, now: Timestamp)
    requires u1.publicId != "" && u2.publicId != ""
    ensures DeliverOrderSpec(s, cfg, orderId, body, randomName, u1, now)
            == DeliverOrderSpec(s, cfg, orderId, body, randomName, u2, now)
  {
  }

  method DeliverOrder(b: Backend, orderId: string, body: DeliveryBody, randomName: string,
                      upload: UploadResult, now: Timestamp) returns (r: Result<Option<Order>>)
    requires b.Valid()
    modifies b
    ensures b.Valid()
    ensures (b.Snapshot(), r) == DeliverOrderSpec(old(b.Snapshot()), b.config, orderId, body, randomName, upload, now)
  {
    var file := body.file;
    if file != "" {
      b.Send(Uploaded(file, UploadName(body, randomName)));
      if upload.publicId == "" {
        return Err(BadRequest(UploadError, DeliverOrderOrigin));
      }
      // the uploaded URL is assigned here and then never read
      file := upload.secureUrl;
    }
    var deliveredWork := DeliveredWorkFrom(body);
    var order := OrderService.SellerDeliverOrder(b, orderId, true, deliveredWork, now);
    r := Ok(order);
  }
}
