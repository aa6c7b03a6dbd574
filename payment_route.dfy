/**
 * `POST /payment`: a chain of early-return checks, then one signed
 * create-order request to the gateway. The gateway's reply, the clock and the
 * random sources are inputs.
 */
module PaymentRoute {
  import opened JsValues
  import opened Text
  import opened Cart
  import opened Amounts
  import opened Runtime
  import opened Signature

  /** The request body fields the handler reads. */
  datatype PaymentBody = PaymentBody(
    cartItems: Option<Cart>,
    address: Option<string>,
    customerId: Option<string>,
    discountOptions: Option<seq<string>>)

  /** The values the handler draws from `uuidv4()`, `moment()`/`Math.random()` and `Date.now()`. */
  datatype Draws = Draws(uuid: string, appTransId: string, now: int)

  /** The gateway's reply to `POST /create`: a thrown error, or its `return_code` and `order_url`. */
  datatype CreateReply = CreateRequestFailed | CreateData(returnCode: Option<int>, orderUrl: Option<string>)

  datatype PaymentResponse =
    | TokenRequired
    | CartItemsRequired
    | PaymentFailed
    | PaymentProcessingError
    | PaymentCreated(paymentUrl: string)
  {
    /** The HTTP status the handler sends with each response. */
    function Status(): int {
      match this
      case TokenRequired => 401
      case CartItemsRequired => 400
      case PaymentFailed => 500
      case PaymentProcessingError => 500
      case PaymentCreated(_) => 200
    }
  }

  /** The response, and the request sent to the gateway if one was sent. */
  datatype PaymentOutcome = PaymentOutcome(response: PaymentResponse, sent: Option<CreateRequest>)

  /** `authorization?.split(' ')[1]`: the second space-separated word of the header. */
  function BearerToken(authorization: Option<string>): (token: Option<string>)
    ensures authorization.None? ==> token.None?
    ensures token.Some? ==> ' ' !in token.value && ' ' in authorization.value
    ensures authorization.Some? && ' ' in authorization.value ==> token.Some?
  {
    match authorization
    case None => None
    case Some(header) =>
      var words := Split(header, ' ');
      if |words| > 1 then
        SpaceInHeader(header, words);
        Some(words[1])
      else None
  }

  lemma SpaceInHeader(header: string, words: seq<string>)
    requires words == Split(header, ' ') && |words| > 1
    ensures ' ' in header
  {
    JoinOfSplit(header, ' ');
    if ' ' !in header {
      SplitOfJoin([header], ' ');
    }
  }

  /** A header `<scheme> <token>` yields exactly the token. */
  lemma BearerTokenOfHeader(scheme: string, token: string)
    requires ' ' !in scheme && ' ' !in token
    ensures BearerToken(Some(scheme + " " + token)) == Some(token)
  {
    assert Join([scheme, token], ' ') == scheme + " " + token;
    SplitOfJoin([scheme, token], ' ');
  }

  /** `paymentPayload` with its MAC. */
  function BuildCreateRequest(env: Env, cart: Cart, body: PaymentBody, draws: Draws): (r: CreateRequest)
    ensures r.amount == TotalWithDiscount(SumOfLines(cart), OrEmpty(body.discountOptions))
    ensures r.appId == env.appId && r.appTransId == draws.appTransId && r.appTime == draws.now
    ensures r.appUser == OrElse(body.customerId, draws.uuid)
    ensures r.item == env.cartJson(cart) && r.embedData == env.embedJson(body.address, OrEmpty(body.discountOptions))
    ensures r.description == "Payment for order #" + r.appUser && r.bankCode == "zalopayapp"
    ensures r.callbackUrl == env.serverUrl + "/zalopay/callback"
    ensures r.mac == env.hmac(MacInput(env, r), env.key1)
  {
    var appUser := OrElse(body.customerId, draws.uuid);
    var discounts := OrEmpty(body.discountOptions);
    var unsigned := CreateRequest(
      env.appId, draws.appTransId, appUser, draws.now, env.cartJson(cart),
      env.embedJson(body.address, discounts), TotalWithDiscount(Subtotal(cart), discounts),
      "Payment for order #" + appUser, "zalopayapp", env.serverUrl + "/zalopay/callback", "");
    unsigned.(mac := OutboundMac(env, unsigned))
  }

  /** The handler: token first, then the cart, then the gateway's verdict. */
  function HandlePayment(env: Env, authorization: Option<string>, body: PaymentBody, draws: Draws, reply: CreateReply): (o: PaymentOutcome)
    ensures o.response.Status() == 401 <==> !Truthy(BearerToken(authorization))
    ensures o.response.Status() == 400 <==>
              Truthy(BearerToken(authorization)) && (body.cartItems.None? || |body.cartItems.value| == 0)
    ensures o.sent.Some? <==> o.response.Status() != 401 && o.response.Status() != 400
    ensures o.sent.Some? ==> o.sent.value == BuildCreateRequest(env, body.cartItems.value, body, draws)
    ensures o.sent.Some? ==>
              && o.sent.value.amount == TotalWithDiscount(SumOfLines(body.cartItems.value), OrEmpty(body.discountOptions))
              && o.sent.value.mac == env.hmac(MacInput(env, o.sent.value), env.key1)
    ensures o.response.Status() == 200 <==> o.sent.Some? && reply.CreateData? && reply.returnCode == Some(1)
    ensures o.response.Status() == 500 <==> o.sent.Some? && !(reply.CreateData? && reply.returnCode == Some(1))
    ensures o.response.PaymentCreated? ==> o.response.paymentUrl == OrElse(reply.orderUrl, "")
  {
    if !Truthy(BearerToken(authorization)) then
      PaymentOutcome(TokenRequired, None)
    else if body.cartItems.None? || |body.cartItems.value| == 0 then
      PaymentOutcome(CartItemsRequired, None)
    else
      var request := BuildCreateRequest(env, body.cartItems.value, body, draws);
      match reply
      case CreateRequestFailed => PaymentOutcome(PaymentProcessingError, Some(request))
      case CreateData(returnCode, orderUrl) =>
        if returnCode != Some(1) then PaymentOutcome(PaymentFailed, Some(request))
        else PaymentOutcome(PaymentCreated(OrElse(orderUrl, "")), Some(request))
  }
}
