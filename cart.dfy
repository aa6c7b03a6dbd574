/**
 * Cart lines and the two `reduce` folds the route file runs over them:
 * the subtotal (Σ price × cartQuantity) and the total quantity (Σ cartQuantity).
 */
module Cart {
  import opened JsValues

  /** One entry of `cartItems` as the shop client sends it. */
  datatype CartItem = CartItem(
    id: int,
    price: real,
    cartQuantity: int,
    dimensions: Option<string>,
    code: Option<string>)

  type Cart = seq<CartItem>

  /** `s.reduce(f, init)`: a left fold, first element first. */
  function Reduce<A, T>(s: seq<T>, f: (A, T) -> A, init: A): A
    decreases |s|
  {
    if |s| == 0 then init else Reduce(s[1..], f, f(init, s[0]))
  }

  /** The price of one line: `item.price * item.cartQuantity`. */
  function LineAmount(item: CartItem): real {
    item.price * item.cartQuantity as real
  }

  /** The reducer `(total, item) => total + item.price * item.cartQuantity`. */
  function AddLine(total: real, item: CartItem): real {
    total + LineAmount(item)
  }

  /** The reducer `(total, item) => total + item.cartQuantity`. */
  function AddQuantity(total: int, item: CartItem): int {
    total + item.cartQuantity
  }

  /** The subtotal fold, the same on the payment and the callback route: Σ price × cartQuantity. */
  function Subtotal(cart: Cart): (subtotal: real)
    ensures subtotal == SumOfLines(cart)
  {
    ReduceAddLine(cart, 0.0);
    Reduce(cart, AddLine, 0.0)
  }

  /** The `total_quantity` fold of the order payload: Σ cartQuantity. */
  function TotalQuantity(cart: Cart): (total: int)
    ensures total == SumOfQuantities(cart)
  {
    ReduceAddQuantity(cart, 0);
    Reduce(cart, AddQuantity, 0)
  }

  /** Reference definition: Σ price × quantity over the lines. */
  function SumOfLines(cart: Cart): real {
    if |cart| == 0 then 0.0 else LineAmount(cart[0]) + SumOfLines(cart[1..])
  }

  /** Reference definition: Σ quantity over the lines. */
  function SumOfQuantities(cart: Cart): int {
    if |cart| == 0 then 0 else cart[0].cartQuantity + SumOfQuantities(cart[1..])
  }

  /** The cart invariant the shop client is expected to keep. */
  predicate WellFormed(cart: Cart) {
    forall i :: 0 <= i < |cart| ==> cart[i].price >= 0.0 && cart[i].cartQuantity > 0
  }

  lemma {:induction false} ReduceAddLine(cart: Cart, acc: real)
    ensures Reduce(cart, AddLine, acc) == acc + SumOfLines(cart)
  {
    if |cart| > 0 {
      ReduceAddLine(cart[1..], AddLine(acc, cart[0]));
    }
  }

  lemma {:induction false} ReduceAddQuantity(cart: Cart, acc: int)
    ensures Reduce(cart, AddQuantity, acc) == acc + SumOfQuantities(cart)
  {
    if |cart| > 0 {
      ReduceAddQuantity(cart[1..], AddQuantity(acc, cart[0]));
    }
  }

  lemma {:induction false} SumOfLinesNonNegative(cart: Cart)
    requires WellFormed(cart)
    ensures SumOfLines(cart) >= 0.0
  {
    if |cart| > 0 {
      assert cart[0].price >= 0.0 && cart[0].cartQuantity > 0;
      assert LineAmount(cart[0]) >= 0.0;
      SumOfLinesNonNegative(cart[1..]);
    }
  }

  /** A well-formed cart has a non-negative subtotal. */
  lemma SubtotalNonNegative(cart: Cart)
    requires WellFormed(cart)
    ensures Subtotal(cart) >= 0.0
  {
    SumOfLinesNonNegative(cart);
  }
}
