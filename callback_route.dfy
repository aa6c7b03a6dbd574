/**
 * `POST /callback`: a chain of early-return checks around three outbound
 * calls (the gateway's status query, the backend's token login and its
 * order creation), whose replies are inputs. `JSON.parse` is abstracted: the
 * request carries the raw `data` string, which the MAC covers, and its decoded
 * view.
 */
module CallbackRoute {
  import opened JsValues
  import opened Cart
  import opened Amounts
  import opened OrderPayload
  import opened Runtime
  import opened Signature
  import opened Gateway

  /**
   * A JSON string nested in the callback data, as `JSON.parse(blob || default)`
   * leaves it: Absent (missing or empty, so the default is parsed), Unusable
   * (the parse throws, or the decoded value makes the next read throw), or the
   * decoded value.
   */
  datatype Blob<T> = Absent | Unusable | Decoded(value: T)

  /** The `embed_data` fields the handler reads. */
  datatype EmbedData = EmbedData(address: Option<string>, discountOptions: Option<seq<string>>)

  /**
   * The fields of the parsed `data` the handler uses. `app_trans_id` is left
   * out: it is only the argument of the status query, whose reply is an input.
   */
  datatype CallbackData = CallbackData(
    appUser: Option<string>,
    embedData: Blob<EmbedData>,
    item: Blob<Cart>)

  /** `JSON.parse(data)`: throws, yields `null`, or yields a value (a non-object reads as all fields absent). */
  datatype ParsedData = Unparseable | JsonNull | JsonValue(fields: CallbackData)

  datatype CallbackRequest = CallbackRequest(
    data: Option<string>,
    parsed: ParsedData,
    mac: Option<string>,
    fcm: Option<string>)

  /** The replies of the status query, the token login (`auth_token`, absent on error) and the order creation. */
  datatype Replies = Replies(status: StatusReply, authToken: Option<string>, order: OrderReply)

  datatype CallbackResponse =
    | DataMissing
    | InvalidDataFormat
    | MacMismatch
    | VerificationFailed
    | MissingRequiredData
    | CredentialsMissing
    | OrderCreatedOk
    | OrderCreationFailed
  {
    /** The HTTP status the handler sends with each response. */
    function Status(): int {
      match this
      case DataMissing => 400
      case InvalidDataFormat => 500
      case MacMismatch => 400
      case VerificationFailed => 500
      case MissingRequiredData => 400
      case CredentialsMissing => 401
      case OrderCreatedOk => 200
      case OrderCreationFailed => 500
    }
  }

  /** The response, and the payload of the order-creation call if one was made. */
  datatype CallbackOutcome = CallbackOutcome(response: CallbackResponse, orderCall: Option<Payload>)

  /** Either an early response, or the authenticated callback data. */
  datatype Authentication = Rejected(response: CallbackResponse) | Authentic(fields: CallbackData)

  /** The checks before the settlement query: data present, data parses, MAC matches, data not null. */
  function Authenticate(env: Env, req: CallbackRequest): (a: Authentication)
    ensures a.Authentic? <==>
              Truthy(req.data) && req.parsed.JsonValue? && CallbackMacMatches(env, req.data.value, req.mac)
    ensures a.Authentic? ==> a.fields == req.parsed.fields
    ensures a == Rejected(MacMismatch) <==>
              Truthy(req.data) && !req.parsed.Unparseable? && !CallbackMacMatches(env, req.data.value, req.mac)
    ensures a == Rejected(DataMissing) <==> !Truthy(req.data)
    ensures a == Rejected(InvalidDataFormat) <==>
              Truthy(req.data) && (req.parsed.Unparseable? ||
                                   (req.parsed.JsonNull? && CallbackMacMatches(env, req.data.value, req.mac)))
    ensures a.Rejected? ==> a.response in {DataMissing, InvalidDataFormat, MacMismatch}
  {
    if !Truthy(req.data) then Rejected(DataMissing)
    else if req.parsed.Unparseable? then Rejected(InvalidDataFormat)
    else if !CallbackMacMatches(env, req.data.value, req.mac) then Rejected(MacMismatch)
    else if req.parsed.JsonNull? then Rejected(InvalidDataFormat)
    else Authentic(req.parsed.fields)
  }

  /** `JSON.parse(parsedData.embed_data || "{}")`, or None when that throws. */
  function EmbedOf(d: CallbackData): (embed: Option<EmbedData>)
    ensures embed.None? <==> d.embedData == Unusable
    ensures d.embedData == Absent ==> embed == Some(EmbedData(None, None))
    ensures d.embedData.Decoded? ==> embed == Some(d.embedData.value)
  {
    match d.embedData
    case Absent => Some(EmbedData(None, None))
    case Unusable => None
    case Decoded(e) => Some(e)
  }

  /** `JSON.parse(parsedData.item || "[]")`, or None when that or the subtotal fold throws. */
  function CartOf(d: CallbackData): (cart: Option<Cart>)
    ensures cart.None? <==> d.item == Unusable
    ensures d.item == Absent ==> cart == Some([])
    ensures d.item.Decoded? ==> cart == Some(d.item.value)
  {
    match d.item
    case Absent => Some([])
    case Unusable => None
    case Decoded(c) => Some(c)
  }

  /** The checks a callback must pass, after settlement, before its order is submitted. */
  predicate Orderable(d: CallbackData, authToken: Option<string>) {
    && EmbedOf(d).Some? && CartOf(d).Some?
    && Truthy(EmbedOf(d).value.address) && Truthy(d.appUser)
    && Truthy(authToken)
  }

  /** The order payload a callback yields, its amounts recomputed from its own cart. */
  function PayloadOf(d: CallbackData): Payload
    requires EmbedOf(d).Some? && CartOf(d).Some? && d.appUser.Some? && EmbedOf(d).value.address.Some?
  {
    var cart := CartOf(d).value;
    var embed := EmbedOf(d).value;
    var subtotal := Subtotal(cart);
    GenerateDjangoOrderPayload(cart, embed.address.value, d.appUser.value, subtotal,
                               TotalWithDiscount(subtotal, OrEmpty(embed.discountOptions)))
  }

  /**
   * The steps after the settlement check: decode `embed_data` and `item`,
   * recompute the amounts, require address and customer, log in to the
   * backend, submit the order. `created` is the order call's verdict.
   */
  function Fulfil(d: CallbackData, authToken: Option<string>, created: bool): (o: CallbackOutcome)
    ensures o.orderCall.Some? <==> Orderable(d, authToken)
    ensures o.orderCall.Some? ==> o.orderCall.value == PayloadOf(d)
    ensures o.orderCall.Some? ==>
              var cart := CartOf(d).value;
              o.orderCall.value.total == TotalWithDiscount(SumOfLines(cart), OrEmpty(EmbedOf(d).value.discountOptions))
              && o.orderCall.value.subtotal == SumOfLines(cart)
    ensures o.response.Status() == 200 <==> o.orderCall.Some? && created
    ensures o.response == InvalidDataFormat <==> EmbedOf(d).None? || CartOf(d).None?
    ensures o.response == MissingRequiredData <==>
              EmbedOf(d).Some? && CartOf(d).Some? && !(Truthy(EmbedOf(d).value.address) && Truthy(d.appUser))
    ensures o.response == CredentialsMissing <==>
              EmbedOf(d).Some? && CartOf(d).Some? && Truthy(EmbedOf(d).value.address) && Truthy(d.appUser)
              && !Truthy(authToken)
    ensures o.response == OrderCreationFailed <==> o.orderCall.Some? && !created
  {
    match EmbedOf(d)
    case None => CallbackOutcome(InvalidDataFormat, None)
    case Some(embed) =>
      match CartOf(d)
      case None => CallbackOutcome(InvalidDataFormat, None)
      case Some(cart) =>
        if !(Truthy(embed.address) && Truthy(d.appUser)) then
          CallbackOutcome(MissingRequiredData, None)
        else if !Truthy(authToken) then
          CallbackOutcome(CredentialsMissing, None)
        else
          CallbackOutcome(if created then OrderCreatedOk else OrderCreationFailed, Some(PayloadOf(d)))
  }

  /** The handler as written: it rejects the callback when the gateway CONFIRMS the payment. */
  function HandleCallback(env: Env, req: CallbackRequest, replies: Replies): (o: CallbackOutcome)
    ensures o.orderCall.Some? <==> Deliverable(env, req, replies) && !ConfirmPayment(replies.status)
    ensures o.orderCall.Some? ==> o.orderCall.value == PayloadOf(req.parsed.fields)
    ensures o.orderCall.Some? ==>
              Truthy(req.data) && CallbackMacMatches(env, req.data.value, req.mac) && !ConfirmPayment(replies.status)
    ensures o.response.Status() == 200 <==> o.orderCall.Some? && CreateOrderInDjango(replies.order, req.fcm)
    ensures o.response == OrderCreationFailed <==> o.orderCall.Some? && !CreateOrderInDjango(replies.order, req.fcm)
    ensures Authenticate(env, req).Rejected? ==> o == CallbackOutcome(Authenticate(env, req).response, None)
    ensures Authenticate(env, req).Authentic? && ConfirmPayment(replies.status) ==> o == CallbackOutcome(VerificationFailed, None)
    ensures Authenticate(env, req).Authentic? && !ConfirmPayment(replies.status) ==>
              o == Fulfil(Authenticate(env, req).fields, replies.authToken, CreateOrderInDjango(replies.order, req.fcm))
  {
    match Authenticate(env, req)
    case Rejected(response) => CallbackOutcome(response, None)
    case Authentic(d) =>
      if ConfirmPayment(replies.status) then CallbackOutcome(VerificationFailed, None)
      else Fulfil(d, replies.authToken, CreateOrderInDjango(replies.order, req.fcm))
  }

  /** The handler as intended: it proceeds only when the gateway confirms the payment. */
  function HandleCallbackCorrected(env: Env, req: CallbackRequest, replies: Replies): (o: CallbackOutcome)
    ensures o.orderCall.Some? <==> Deliverable(env, req, replies) && ConfirmPayment(replies.status)
    ensures o.orderCall.Some? ==> o.orderCall.value == PayloadOf(req.parsed.fields)
    ensures o.orderCall.Some? ==>
              Truthy(req.data) && CallbackMacMatches(env, req.data.value, req.mac) && ConfirmPayment(replies.status)
    ensures o.response.Status() == 200 <==> o.orderCall.Some? && OrderCreated(replies.order)
    ensures o.response == OrderCreationFailed <==> o.orderCall.Some? && !OrderCreated(replies.order)
    ensures Authenticate(env, req).Rejected? ==> o == CallbackOutcome(Authenticate(env, req).response, None)
    ensures Authenticate(env, req).Authentic? && !ConfirmPayment(replies.status) ==> o == CallbackOutcome(VerificationFailed, None)
    ensures Authenticate(env, req).Authentic? && ConfirmPayment(replies.status) ==>
              o == Fulfil(Authenticate(env, req).fields, replies.authToken, OrderCreated(replies.order))
  {
    match Authenticate(env, req)
    case Rejected(response) => CallbackOutcome(response, None)
    case Authentic(d) =>
      if !ConfirmPayment(replies.status) then CallbackOutcome(VerificationFailed, None)
      else Fulfil(d, replies.authToken, OrderCreated(replies.order))
  }

  /** An authentic callback that passes every later check. */
  predicate Deliverable(env: Env, req: CallbackRequest, replies: Replies) {
    && Truthy(req.data) && req.parsed.JsonValue?
    && CallbackMacMatches(env, req.data.value, req.mac)
    && Orderable(req.parsed.fields, replies.authToken)
  }

  /** As written, every authentic callback whose payment the gateway confirms gets 500 and no order. */
  lemma ConfirmedPaymentNeverOrders(env: Env, req: CallbackRequest, replies: Replies)
    requires Truthy(req.data) && req.parsed.JsonValue? && CallbackMacMatches(env, req.data.value, req.mac)
    requires ConfirmPayment(replies.status)
    ensures HandleCallback(env, req, replies) == CallbackOutcome(VerificationFailed, None)
    ensures HandleCallback(env, req, replies).response.Status() == 500
  {
  }

  /** As written, an authentic callback whose status query FAILED still produces an order. */
  lemma FailedStatusQueryStillOrders(env: Env, req: CallbackRequest, replies: Replies)
    requires Deliverable(env, req, replies)
    requires replies.status == StatusRequestFailed
    ensures HandleCallback(env, req, replies).orderCall == Some(PayloadOf(req.parsed.fields))
  {
  }

  /** Corrected: an authentic, settled, well-formed callback produces its order, with the recomputed total. */
  lemma SettledCallbackOrders(env: Env, req: CallbackRequest, replies: Replies)
    requires Deliverable(env, req, replies)
    requires ConfirmPayment(replies.status)
    ensures HandleCallbackCorrected(env, req, replies).orderCall == Some(PayloadOf(req.parsed.fields))
    ensures HandleCallbackCorrected(env, req, replies).response.Status() == (if OrderCreated(replies.order) then 200 else 500)
  {
  }

  /** The MAC check, at handler level: past the parse, a callback is refused for its MAC iff it is not KEY2's HMAC of the raw data. */
  lemma MacCheckedOnRawDataWithKey2(env: Env, req: CallbackRequest, replies: Replies)
    requires Truthy(req.data) && !req.parsed.Unparseable?
    ensures HandleCallback(env, req, replies).response == MacMismatch <==>
              req.mac != Some(env.hmac(req.data.value, env.key2))
    ensures HandleCallbackCorrected(env, req, replies).response == MacMismatch <==>
              req.mac != Some(env.hmac(req.data.value, env.key2))
  {
  }

  /** As written, a push token turns a backend 201 into a 500 for the order that was just created. */
  lemma PushTokenGives500(env: Env, req: CallbackRequest, replies: Replies)
    requires Deliverable(env, req, replies) && !ConfirmPayment(replies.status)
    requires replies.order == OrderResponse(201, true) && Truthy(req.fcm)
    ensures HandleCallback(env, req, replies) == CallbackOutcome(OrderCreationFailed, Some(PayloadOf(req.parsed.fields)))
    ensures HandleCallback(env, req, replies).response.Status() == 500
  {
  }

  /** Data that parses to `null` and carries KEY2's MAC gives 500 when `app_trans_id` is read from it. */
  lemma NullDataRejectedAfterMac(env: Env, req: CallbackRequest, replies: Replies)
    requires Truthy(req.data) && req.parsed.JsonNull? && CallbackMacMatches(env, req.data.value, req.mac)
    ensures HandleCallback(env, req, replies) == CallbackOutcome(InvalidDataFormat, None)
    ensures HandleCallbackCorrected(env, req, replies) == CallbackOutcome(InvalidDataFormat, None)
  {
  }

  /** Missing or empty `data` gives 400 without any further work. */
  lemma MissingDataRejected(env: Env, req: CallbackRequest, replies: Replies)
    requires !Truthy(req.data)
    ensures HandleCallback(env, req, replies) == CallbackOutcome(DataMissing, None)
    ensures HandleCallbackCorrected(env, req, replies) == CallbackOutcome(DataMissing, None)
  {
  }

  /** Unparseable `data` gives 500 before the MAC is looked at, whatever MAC came with it. */
  lemma UnparseableRejectedBeforeMac(env: Env, req: CallbackRequest, replies: Replies)
    requires Truthy(req.data) && req.parsed.Unparseable?
    ensures HandleCallback(env, req, replies) == CallbackOutcome(InvalidDataFormat, None)
    ensures HandleCallbackCorrected(env, req, replies) == CallbackOutcome(InvalidDataFormat, None)
  {
  }

  /** A MAC that is not KEY2's HMAC of the parsed data gives 400 and no order. */
  lemma MacMismatchRejected(env: Env, req: CallbackRequest, replies: Replies)
    requires Truthy(req.data) && !req.parsed.Unparseable?
    requires req.mac != Some(env.hmac(req.data.value, env.key2))
    ensures HandleCallback(env, req, replies) == CallbackOutcome(MacMismatch, None)
    ensures HandleCallbackCorrected(env, req, replies) == CallbackOutcome(MacMismatch, None)
  {
  }

  /** Keys are not interchangeable: a callback signed with KEY1 is rejected wherever the two keys' MACs differ. */
  lemma Key1MacRejected(env: Env, req: CallbackRequest, replies: Replies)
    requires Truthy(req.data) && !req.parsed.Unparseable?
    requires req.mac == Some(env.hmac(req.data.value, env.key1))
    requires env.hmac(req.data.value, env.key1) != env.hmac(req.data.value, env.key2)
    ensures HandleCallback(env, req, replies).response == MacMismatch
    ensures HandleCallbackCorrected(env, req, replies).response == MacMismatch
  {
    MacMismatchRejected(env, req, replies);
  }

  /** A missing `item` reads as an empty cart, which is truthy: the order goes ahead with no products. */
  lemma EmptyCartPasses(env: Env, req: CallbackRequest, replies: Replies)
    requires Deliverable(env, req, replies) && !ConfirmPayment(replies.status)
    requires req.parsed.fields.item == Absent
    ensures HandleCallback(env, req, replies).orderCall.Some?
    ensures HandleCallback(env, req, replies).orderCall.value.orderProducts == []
    ensures HandleCallback(env, req, replies).orderCall.value.subtotal == 0.0
  {
  }

  /** An authentic callback missing its address or customer id gives 400 and no order. */
  lemma MissingAddressOrCustomerRejected(env: Env, req: CallbackRequest, replies: Replies)
    requires Truthy(req.data) && req.parsed.JsonValue? && CallbackMacMatches(env, req.data.value, req.mac)
    requires !ConfirmPayment(replies.status)
    requires EmbedOf(req.parsed.fields).Some? && CartOf(req.parsed.fields).Some?
    requires !Truthy(EmbedOf(req.parsed.fields).value.address) || !Truthy(req.parsed.fields.appUser)
    ensures HandleCallback(env, req, replies) == CallbackOutcome(MissingRequiredData, None)
  {
  }

  /** An authentic, complete callback whose backend login yields no token gives 401 and no order. */
  lemma MissingTokenRejected(env: Env, req: CallbackRequest, replies: Replies)
    requires Truthy(req.data) && req.parsed.JsonValue? && CallbackMacMatches(env, req.data.value, req.mac)
    requires !ConfirmPayment(replies.status)
    requires EmbedOf(req.parsed.fields).Some? && CartOf(req.parsed.fields).Some?
    requires Truthy(EmbedOf(req.parsed.fields).value.address) && Truthy(req.parsed.fields.appUser)
    requires !Truthy(replies.authToken)
    ensures HandleCallback(env, req, replies) == CallbackOutcome(CredentialsMissing, None)
  {
  }
}
