/** `generateDjangoOrderPayload`: the order the callback route submits to the backend. */
module OrderPayload {
  import opened JsValues
  import opened Cart

  /** One entry of `order_products`. */
  datatype OrderProduct = OrderProduct(
    product: int,
    quantity: int,
    price: real,
    dimensions: Option<string>,
    code: string)

  datatype Payload = Payload(
    orderProducts: seq<OrderProduct>,
    customerId: string,
    address: string,
    totalQuantity: int,
    subtotal: real,
    total: real,
    deliveryStatus: string,
    paymentStatus: string)

  /** The mapping callback applied to each cart line. */
  function ToOrderProduct(item: CartItem): OrderProduct {
    OrderProduct(item.id, item.cartQuantity, item.price, OrNull(item.dimensions), OrElse(item.code, ""))
  }

  /** `cartItems.map(...)`: one order product per cart line, in cart order. */
  function OrderProducts(cart: Cart): (products: seq<OrderProduct>)
    ensures |products| == |cart|
    ensures forall i :: 0 <= i < |cart| ==>
      && products[i].product == cart[i].id
      && products[i].quantity == cart[i].cartQuantity
      && products[i].price == cart[i].price
      && products[i].dimensions == (if Truthy(cart[i].dimensions) then cart[i].dimensions else None)
      && products[i].code == (if Truthy(cart[i].code) then cart[i].code.value else "")
  {
    if |cart| == 0 then [] else [ToOrderProduct(cart[0])] + OrderProducts(cart[1..])
  }

  /** The payload for a cart, the customer and address, and the two amounts. */
  function GenerateDjangoOrderPayload(cart: Cart, address: string, customerId: string, subtotal: real, totalAmount: real): (p: Payload)
    ensures p.orderProducts == OrderProducts(cart)
    ensures |p.orderProducts| == |cart|
    ensures forall i :: 0 <= i < |cart| ==> p.orderProducts[i].product == cart[i].id && p.orderProducts[i].quantity == cart[i].cartQuantity
    ensures p.totalQuantity == SumOfQuantities(cart)
    ensures p.customerId == customerId && p.address == address
    ensures p.subtotal == subtotal && p.total == totalAmount
    ensures p.deliveryStatus == "pending" && p.paymentStatus == "completed"
  {
    Payload(OrderProducts(cart), customerId, address, TotalQuantity(cart), subtotal, totalAmount, "pending", "completed")
  }

  /** The payload's total quantity is the sum of its order products' quantities. */
  lemma {:induction false} ProductQuantitiesMatch(cart: Cart)
    ensures SumOfQuantities(cart) == SumOfProductQuantities(OrderProducts(cart))
  {
    if |cart| > 0 {
      ProductQuantitiesMatch(cart[1..]);
      assert OrderProducts(cart)[1..] == OrderProducts(cart[1..]);
    }
  }

  function SumOfProductQuantities(products: seq<OrderProduct>): int {
    if |products| == 0 then 0 else products[0].quantity + SumOfProductQuantities(products[1..])
  }
}
