/**
 * The success predicates of the two outbound calls the callback route makes:
 * `confirmPayment` (the gateway's status query) and `createOrderInDjango`.
 * The replies themselves are inputs.
 */
module Gateway {
  import opened JsValues

  /** The reply to `GET /getstatusbyapptransid`: a thrown error, or the JSON body's codes. */
  datatype StatusReply = StatusRequestFailed | StatusData(returnCode: Option<int>, subReturnCode: Option<int>)

  /** `confirmPayment`: `return_code === 1 && sub_return_code === 1`, false on any thrown error. */
  function ConfirmPayment(reply: StatusReply): (settled: bool)
    ensures settled <==> reply == StatusData(Some(1), Some(1))
  {
    match reply
    case StatusRequestFailed => false
    case StatusData(returnCode, subReturnCode) => returnCode == Some(1) && subReturnCode == Some(1)
  }

  /** The reply to `POST /api/orders/add`: a thrown error, or a status and whether the body has an `id`. */
  datatype OrderReply = OrderRequestFailed | OrderResponse(status: int, hasId: bool)

  /**
   * `createOrderInDjango` as written: truthy only on status 201 with an `id`.
   * With a truthy `fcm` token it calls `sendPushNotification`, which the route
   * file never imports; the ReferenceError is caught and the call yields
   * `undefined`, although the backend has created the order.
   */
  function CreateOrderInDjango(reply: OrderReply, fcm: Option<string>): (created: bool)
    ensures created <==> reply == OrderResponse(201, true) && !Truthy(fcm)
  {
    match reply
    case OrderRequestFailed => false
    case OrderResponse(status, hasId) =>
      if status != 201 then false
      else if !hasId then false
      else if Truthy(fcm) then false
      else true
  }

  /** `createOrderInDjango` as intended: a 201 from the backend is success, whatever the push does. */
  function OrderCreated(reply: OrderReply): (created: bool)
    ensures created <==> reply.OrderResponse? && reply.status == 201
  {
    match reply
    case OrderRequestFailed => false
    case OrderResponse(status, _) => status == 201
  }

  /** A push token makes the as-written call report failure for an order the backend created. */
  lemma PushTokenMasksCreatedOrder()
    ensures OrderCreated(OrderResponse(201, true))
    ensures !CreateOrderInDjango(OrderResponse(201, true), Some("device-token"))
  {
  }

  /** As written, success implies intended success; the converse fails exactly on a push token or a missing id. */
  lemma AsWrittenImpliesIntended(reply: OrderReply, fcm: Option<string>)
    ensures CreateOrderInDjango(reply, fcm) ==> OrderCreated(reply)
    ensures OrderCreated(reply) && !CreateOrderInDjango(reply, fcm) <==>
              reply.OrderResponse? && reply.status == 201 && (Truthy(fcm) || !reply.hasId)
  {
  }
}
