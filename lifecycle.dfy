/**
 * Properties that span both routes: the callback carries the cart and the
 * discount list forward in its `item` and `embed_data` blobs, and recomputes
 * the amount from them.
 */
module Lifecycle {
  import opened JsValues
  import opened Cart
  import opened Amounts
  import opened Runtime
  import opened PaymentRoute
  import opened CallbackRoute

  /** The callback data decodes to the cart and discount list the payment route sent. */
  predicate CarriesCheckout(body: PaymentBody, req: CallbackRequest)
    requires body.cartItems.Some?
  {
    && req.parsed.JsonValue?
    && req.parsed.fields.item == Decoded(body.cartItems.value)
    && req.parsed.fields.embedData == Decoded(EmbedData(body.address, Some(OrEmpty(body.discountOptions))))
  }

  /**
   * The order a callback submits has exactly the total the payment route
   * signed, when the callback carries the same cart and discount list.
   */
  lemma OrderTotalMatchesSignedAmount(
    env: Env, authorization: Option<string>, body: PaymentBody, draws: Draws, reply: CreateReply,
    req: CallbackRequest, replies: Replies)
    requires HandlePayment(env, authorization, body, draws, reply).sent.Some?
    requires body.cartItems.Some? && CarriesCheckout(body, req)
    ensures HandleCallback(env, req, replies).orderCall.Some? ==>
              HandleCallback(env, req, replies).orderCall.value.total
                == HandlePayment(env, authorization, body, draws, reply).sent.value.amount
    ensures HandleCallbackCorrected(env, req, replies).orderCall.Some? ==>
              HandleCallbackCorrected(env, req, replies).orderCall.value.total
                == HandlePayment(env, authorization, body, draws, reply).sent.value.amount
  {
    var d := req.parsed.fields;
    assert CartOf(d) == Some(body.cartItems.value);
    assert OrEmpty(EmbedOf(d).value.discountOptions) == OrEmpty(body.discountOptions);
  }

  /** One line of 100000 × 2 with "freeShipping": subtotal 200000, total 200000. */
  lemma FreeShippingCheckoutExample(item: CartItem)
    requires item.price == 100000.0 && item.cartQuantity == 2
    ensures Subtotal([item]) == 200000.0
    ensures TotalWithDiscount(Subtotal([item]), [FreeShipping]) == 200000.0
  {
    assert SumOfLines([item]) == LineAmount(item) + SumOfLines([item][1..]);
    assert [item][1..] == [];
  }
}
