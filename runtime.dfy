/**
 * What the route file takes from its surroundings: configuration read from the
 * process environment, and the library primitives it calls, which this model
 * leaves uninterpreted (HMAC-SHA256, number-to-text, JSON serialisation).
 */
module Runtime {
  import opened JsValues
  import opened Cart

  /** `CryptoJS.HmacSHA256(message, key).toString()`. */
  type Hmac = (string, string) -> string

  datatype Env = Env(
    appId: int,                  // parseInt(ZALO_PAY_APP_ID, 10)
    key1: string,                // ZALO_PAY_KEY1: signs requests to the gateway
    key2: string,                // ZALO_PAY_KEY2: authenticates callbacks from the gateway
    serverUrl: string,           // SERVER_URL
    hmac: Hmac,
    numberText: real -> string,  // a JavaScript number as text, as `join` writes it
    cartJson: Cart -> string,    // JSON.stringify(cartItems)
    embedJson: (Option<string>, seq<string>) -> string)  // JSON.stringify({ address, discountOptions })
}
