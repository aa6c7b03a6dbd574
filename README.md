# ZaloPay relay: payment amounts, signatures and route decisions

This project models the core of `routes/zalopay.js`, an Express router that relays payments between a shop client, the ZaloPay gateway and a Django order backend. It has two routes:

- `POST /payment` checks the client's bearer token and cart and computes the amount due. It signs a create-order request with KEY1 and returns the gateway's `order_url`.
- `POST /callback` receives the gateway's server-to-server notification. It checks the notification's MAC with KEY2 and queries the gateway for the payment status. It then recomputes the amount from the cart carried in the notification, logs in to the backend and submits the order.

The model has these parts:

- **Text**: `Array.prototype.join` and `String.prototype.split` on one character. It proves two round trips: splitting then joining gives back the string, and joining delimiter-free parts then splitting gives back the parts.
- **Cart**: the two `reduce` folds, the subtotal and the total quantity. Each is proved equal to a plain sum.
- **Amounts**: `calculateTotalWithDiscount`, with exact reals in place of JavaScript doubles. A method updates a local `total` step by step, as the source does. It is proved equal to a specification: shipping charged plus goods charged. Lemmas state what each discount token does.
- **OrderPayload**: `generateDjangoOrderPayload`.
- **Signature**: which fields are signed, in what order, and with which key. HMAC-SHA256 stays uninterpreted: it is a function-valued parameter of `Runtime.Env`.
- **Gateway**: the success predicates of `confirmPayment` and `createOrderInDjango`.
- **PaymentRoute** and **CallbackRoute**: the two handlers, each a pure function from the request and the replies of the outbound calls to an outcome. The outcome holds the response, which fixes the HTTP status, and the request sent to the gateway or the order payload sent to the backend, if any.
- **Lifecycle**: properties that span both routes.

The callback is modelled as written in `CallbackRoute.HandleCallback`. `CallbackRoute.HandleCallbackCorrected` sits beside it with the two defects under "## Findings" repaired. It also counts a 201 whose body has no `id` as success; as written, `responseData.id.toString()` throws at routes/zalopay.js:54 and the callback answers 500 (`Gateway.AsWrittenImpliesIntended` states this difference). Four behaviours of the code are modelled as they are, although a payment relay would be expected to behave otherwise:

- A callback is rejected when the gateway confirms the payment.
- The push-notification call cannot succeed.
- No record of processed callbacks is kept, so a repeated callback produces a second order.
- `data` is parsed before its MAC is checked.

## Model

| member | source | states |
|---|---|---|
| Text.Split | routes/zalopay.js:116 | the pieces of `split(' ')`: at least one, none containing the separator |
| Text.JoinOfSplit | routes/zalopay.js:116 | joining the pieces of a split on the same separator gives back the string |
| Text.SplitOfJoin | routes/zalopay.js:154-163 | joining delimiter-free parts and splitting again gives back exactly the parts, in order |
| Cart.Subtotal | routes/zalopay.js:131-134 | the subtotal `reduce`, the same fold on both routes (also lines 236-239), computes Σ price × cartQuantity over the cart |
| Cart.TotalQuantity | routes/zalopay.js:99-102 | the `total_quantity` `reduce` computes Σ cartQuantity |
| Cart.SubtotalNonNegative | routes/zalopay.js:131-134 | a cart with non-negative prices and positive quantities has a non-negative subtotal |
| Amounts.CalculateTotalWithDiscount | routes/zalopay.js:68-80 | the step-by-step total equals the shipping still charged plus the goods still charged |
| Amounts.NoDiscountAddsShipping | routes/zalopay.js:69-70 | without a recognised token the total is subtotal + 30000 |
| Amounts.OnlyRecognisedTokensMatter | routes/zalopay.js:72-77 | two discount lists that agree on "freeShipping" and "10PercentOff" give the same total |
| Amounts.UnknownTokenIgnored | routes/zalopay.js:72-77 | appending any other token leaves the total unchanged |
| Amounts.FreeShippingWaivesFee | routes/zalopay.js:72-74 | "freeShipping" subtracts exactly the 30000 fee |
| Amounts.TenPercentOffDiscountsSubtotal | routes/zalopay.js:75-77 | "10PercentOff" subtracts exactly subtotal/10 and nothing of the fee |
| Amounts.BothDiscounts | routes/zalopay.js:69-77 | with both tokens the total is 0.9 × subtotal |
| Amounts.TotalBounds | routes/zalopay.js:68-80 | for subtotal ≥ 0: 0 ≤ 0.9 × subtotal ≤ total ≤ subtotal + 30000 |
| Amounts.TotalMonotonic | routes/zalopay.js:68-80 | the total is non-decreasing in the subtotal |
| OrderPayload.OrderProducts | routes/zalopay.js:84-90 | one order product per cart line, same order; each copies id, cartQuantity and price, dimensions default to null and code to "" |
| OrderPayload.GenerateDjangoOrderPayload | routes/zalopay.js:83-108 | same length and ids as the cart; total_quantity is Σ cartQuantity; subtotal, total, customer and address are passed through; delivery "pending", payment "completed" |
| OrderPayload.ProductQuantitiesMatch | routes/zalopay.js:84-102 | total_quantity equals the sum of the order products' quantities |
| Signature.MacInput | routes/zalopay.js:154-163 | the signed string is exactly app_id, app_trans_id, app_user, amount, app_time, embed_data and item, in that order, with a bar character between neighbours |
| Signature.MacInputSplitsIntoFields | routes/zalopay.js:154-165 | with delimiter-free fields, the signed string splits back into the seven fields in wire order |
| Signature.SameMacInputSameFields | routes/zalopay.js:154-165 | two requests with delimiter-free fields and the same signed string agree on every signed field |
| Signature.OutboundMac | routes/zalopay.js:154-165 | the outbound MAC is KEY1's HMAC of app_id, app_trans_id, app_user, amount, app_time, embed_data and item, in that order, with a bar character between neighbours |
| Signature.CallbackMacMatches | routes/zalopay.js:211-215 | the callback check accepts KEY2's HMAC of the raw data; it rejects KEY1's HMAC wherever the two differ, and rejects a missing MAC |
| Gateway.ConfirmPayment | routes/zalopay.js:11-37 | settled iff the status reply is `return_code === 1 && sub_return_code === 1`; false when the query throws |
| Gateway.CreateOrderInDjango | routes/zalopay.js:39-65 | as written: truthy iff the backend answers 201 with an id and no push token was given |
| Gateway.OrderCreated | routes/zalopay.js:52-61 | as intended: success iff the backend answers 201 |
| Gateway.PushTokenMasksCreatedOrder | routes/zalopay.js:57-63 | a 201 with an id and a push token counts as success as intended, and as failure as written |
| Gateway.AsWrittenImpliesIntended | routes/zalopay.js:52-64 | as-written success implies intended success; they differ exactly on a 201 with a push token or without an id |
| JsValues.OrEmpty | routes/zalopay.js:137 | the discount list, or [] when it is absent or falsy; used on both routes (also line 235) |
| PaymentRoute.BearerToken | routes/zalopay.js:116 | the token is absent without a header; a token is present exactly when the header has a space, and contains no space itself |
| PaymentRoute.BearerTokenOfHeader | routes/zalopay.js:116 | a header `<scheme> <token>` yields exactly the token |
| PaymentRoute.BuildCreateRequest | routes/zalopay.js:137-165 | the amount is the discounted Σ price × quantity; ids, time, blobs and constants as listed; the MAC is KEY1's HMAC of the signed string |
| PaymentRoute.HandlePayment | routes/zalopay.js:111-198 | 401 iff no token, before the cart check; 400 iff token but no or empty cart; otherwise exactly the request `BuildCreateRequest` builds is sent, and 200 with `order_url` or "" iff the gateway's return_code is 1, else 500 |
| CallbackRoute.Authenticate | routes/zalopay.js:203-221 | the data is authentic iff present, parseable, not null and carrying KEY2's MAC; "data missing" (400) iff data is falsy; MAC mismatch (400) iff data is present and parses but the MAC differs; invalid format (500) iff data does not parse, or parses to null with a matching MAC |
| CallbackRoute.EmbedOf | routes/zalopay.js:228 | a missing or empty `embed_data` reads as `{}`; an unusable one is the thrown case; otherwise the decoded value |
| CallbackRoute.CartOf | routes/zalopay.js:229 | a missing or empty `item` reads as `[]`; an unusable one is the thrown case; otherwise the decoded cart |
| CallbackRoute.Fulfil | routes/zalopay.js:228-272 | an order call is made iff the blobs decode and address, customer and backend token are truthy; its subtotal and total are recomputed from the callback's own cart; an iff for every response: 500 iff a blob is unusable, 400 iff address or customer is falsy, 401 iff the login token is falsy, 200 iff the call was made and succeeded, 500 iff it was made and failed |
| CallbackRoute.HandleCallback | routes/zalopay.js:200-277 | as written: the order call, with the payload recomputed from the callback's own blobs, is made iff the callback is authentic and complete and the gateway did NOT confirm the payment; 200 iff the order call was made and reported success, 500 ("order creation failed") iff it was made and reported failure; an early rejection, the confirmed-payment 500, or the result of the later steps otherwise |
| CallbackRoute.HandleCallbackCorrected | routes/zalopay.js:200-277 | as intended: the order call, with the recomputed payload, is made iff the callback is authentic and complete and the gateway confirmed the payment; 200 iff the order call was made and the backend answered 201, 500 iff it was made and did not; an early rejection, the unconfirmed-payment 500, or the result of the later steps otherwise |
| CallbackRoute.ConfirmedPaymentNeverOrders | routes/zalopay.js:221-225 | as written, every authentic callback whose payment the gateway confirms gets 500 and no order, before the blobs, address or login are read |
| CallbackRoute.FailedStatusQueryStillOrders | routes/zalopay.js:221-225 | as written, an authentic, complete callback whose status query threw still produces its order |
| CallbackRoute.SettledCallbackOrders | routes/zalopay.js:221-272 | corrected: an authentic, complete, settled callback produces its order with the recomputed totals; 200 iff the backend answered 201 |
| CallbackRoute.PushTokenGives500 | routes/zalopay.js:57-64 | as written, an authentic, complete, unconfirmed callback with a push token gets 500 although the backend answered 201 and the order call was made |
| CallbackRoute.NullDataRejectedAfterMac | routes/zalopay.js:209-221 | data that parses to null and carries a matching MAC gives 500 and no order in both handlers |
| CallbackRoute.MissingDataRejected | routes/zalopay.js:205-207 | missing or empty data gives 400 and no order |
| CallbackRoute.UnparseableRejectedBeforeMac | routes/zalopay.js:209-219 | unparseable data gives 500 whatever the MAC |
| CallbackRoute.MacCheckedOnRawDataWithKey2 | routes/zalopay.js:209-219 | in both handlers, a present, parseable callback is refused for its MAC iff the MAC is not KEY2's HMAC of the raw data |
| CallbackRoute.MacMismatchRejected | routes/zalopay.js:211-219 | a MAC other than KEY2's HMAC of the data gives 400 and no order |
| CallbackRoute.Key1MacRejected | routes/zalopay.js:211-215 | a callback carrying KEY1's HMAC is rejected wherever the two keys' HMACs differ |
| CallbackRoute.EmptyCartPasses | routes/zalopay.js:229-243 | a missing item blob reads as an empty, truthy cart: the order goes ahead with no products and subtotal 0 |
| CallbackRoute.MissingAddressOrCustomerRejected | routes/zalopay.js:243-272 | an authentic callback without address or customer id gives 400 and no order |
| CallbackRoute.MissingTokenRejected | routes/zalopay.js:245-248 | an authentic, complete callback whose backend login yields no token gives 401 and no order |
| Lifecycle.OrderTotalMatchesSignedAmount | routes/zalopay.js:235-240 | when the callback carries the checkout's cart and discounts, the order's total equals the amount the payment route signed |
| Lifecycle.FreeShippingCheckoutExample | routes/zalopay.js:68-80 | one line of 100000 × 2 with "freeShipping" gives subtotal 200000 and total 200000 |

## Left out

- Express routing, `index.js`, body parsing and the error middleware: HTTP plumbing. Responses are a datatype with an HTTP status, and message texts are not modelled.
- The axios calls to the gateway's `/create` and `/getstatusbyapptransid` endpoints and to the backend's login and order endpoints: their replies are inputs (`CreateReply`, `StatusReply`, the login's `auth_token`, `OrderReply`).
- HMAC-SHA256 (RFC 2104 over FIPS 180-4), number-to-text conversion and `JSON.stringify`: uninterpreted functions in `Runtime.Env`.
- `JSON.parse`: the decoded view of the callback data and its nested blobs is an input beside the raw `data` string. A blob whose decoded value makes the next read throw counts as unusable.
- `uuidv4()`, the transaction id from `moment()` and `Math.random()`, and `Date.now()`: nondeterministic, so they are inputs (`PaymentRoute.Draws`).
- JavaScript double rounding of `subtotal * 0.1`: amounts are exact reals.
- JavaScript type coercion: prices, quantities and codes are typed. A numeric-string price loses nothing: it reaches the subtotal only through `*`, which turns it into a number. A string `cartQuantity` is not modelled: the `total_quantity` fold (routes/zalopay.js:100) adds it with `+`, which would concatenate it. Neither is a `discountOptions` string, whose `includes` would match substrings. Neither is a non-array `cartItems` on the payment route, where the fold throws outside the `try` and the request never gets an answer. Falsy values other than absent and "" (0, false) are folded into "absent".
- `utils/send_notification.js` and `utils/firebase_connection.js`: the push transport and the SDK bootstrap. The route file never imports the push helper (see "## Findings").
- Console logging and the hard-coded backend credentials at routes/zalopay.js:232-233: constants with no behaviour. The login is represented only by its reply.
- Deduplication of repeated callbacks: the code has none.
- The transaction id the status query asks about is not tied to the status reply, which is an input.

## Findings

| source | as written | input that shows it | evidently intended | confidence | as-written member | corrected member |
|---|---|---|---|---|---|---|
| routes/zalopay.js:223-225 | returns 500 "Payment verification failed." when `confirmPayment` is true, and goes on to create the order when it is false, including when the status query threw | an authentic callback whose status query answers return_code 1 and sub_return_code 1 | reject when the gateway does not confirm the payment, create the order when it does | high, not executed | CallbackRoute.ConfirmedPaymentNeverOrders | CallbackRoute.SettledCallbackOrders |
| routes/zalopay.js:57-58 | calls `sendPushNotification`, which routes/zalopay.js never imports; the ReferenceError is caught at line 62 and the function returns `undefined`, so the callback answers 500 for an order the backend created | backend answers 201 with an id, and the callback body carries fcm "device-token" | a 201 is success; the push is fire-and-forget | high, not executed | Gateway.PushTokenMasksCreatedOrder | Gateway.OrderCreated |
