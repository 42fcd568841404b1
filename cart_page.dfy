/**
 * The cart page (src/pages/CartPage.tsx): quantity buttons that issue
 * requests to the cart engine, per-line totals and the order summary.
 * The engine's `cart.total` is an input here (the engine is not part of the
 * model), in cents.
 */
module CartPage {
  import opened Wrappers
  import opened Types

  /** Orders above 75.00 ship free; otherwise shipping is 7.99. */
  const FreeShippingAbove := 7500
  const ShippingFee := 799

  /** The "+" button: ask for one more of the line's product. */
  function IncrementQuantity(productId: string, currentQuantity: int): (call: CartCall)
    ensures call.UpdateQuantity? && call.productId == productId
    ensures call.quantity > currentQuantity && call.quantity - currentQuantity == 1
  {
    UpdateQuantity(productId, currentQuantity + 1)
  }

  /** The "-" button: ask for one fewer, but only while more than one is in the cart. */
  function DecrementQuantity(productId: string, currentQuantity: int): (call: Option<CartCall>)
    ensures call.Some? <==> currentQuantity > 1
    ensures call.Some? ==> call.value.UpdateQuantity? && call.value.productId == productId
    ensures call.Some? ==> 1 <= call.value.quantity < currentQuantity && call.value.quantity + 1 == currentQuantity
  {
    if currentQuantity > 1 then Some(UpdateQuantity(productId, currentQuantity - 1)) else None
  }

  /** The Remove button asks the cart engine to drop the line of that product. */
  function RemoveLine(productId: string): (call: CartCall)
    ensures call.RemoveFromCart? && call.productId == productId
  {
    RemoveFromCart(productId)
  }

  /** "-" undoes "+" for any quantity a cart line can hold, and at quantity 1 "-" asks for nothing. */
  lemma DecrementUndoesIncrement(productId: string, quantity: int)
    requires quantity >= 1
    ensures DecrementQuantity(productId, IncrementQuantity(productId, quantity).quantity) == Some(UpdateQuantity(productId, quantity))
    ensures quantity == 1 ==> DecrementQuantity(productId, quantity) == None
  {
  }

  /** Shipping for a subtotal: free strictly above the threshold, the flat fee otherwise. */
  function Shipping(subtotal: int): (fee: int)
    ensures fee == 0 <==> subtotal > FreeShippingAbove
    ensures fee != 0 ==> fee == ShippingFee
  {
    if subtotal > FreeShippingAbove then 0 else ShippingFee
  }

  /** The total shown in the order summary. */
  function GrandTotal(subtotal: int): (total: int)
    ensures total == subtotal + Shipping(subtotal)
    ensures total >= subtotal
    ensures total == subtotal <==> subtotal > FreeShippingAbove
  {
    if subtotal > FreeShippingAbove then subtotal else subtotal + ShippingFee
  }

  /**
   * The threshold is strict, so a subtotal of exactly 75.00 pays shipping
   * and ends up costing more than one of 75.01.
   */
  lemma ThresholdIsStrict()
    ensures Shipping(7500) == 799 && Shipping(7501) == 0
    ensures GrandTotal(7500) == 8299 && GrandTotal(7501) == 7501
    ensures GrandTotal(7500) > GrandTotal(7501)
  {
  }

  /** Between subtotals on the same side of the threshold, the grand total keeps their order. */
  lemma GrandTotalMonotoneOnEachSide(a: int, b: int)
    requires a <= b
    requires (a > FreeShippingAbove) == (b > FreeShippingAbove)
    ensures GrandTotal(a) <= GrandTotal(b)
  {
  }

  /** One row of the item list. */
  datatype Line = Line(productId: string, name: string, unitPrice: int, quantity: int, total: int)

  function LineOf(item: CartItem): (line: Line)
    ensures line.productId == item.product.id && line.unitPrice == item.product.price
    ensures line.quantity == item.quantity
    ensures line.total == line.unitPrice * line.quantity
  {
    Line(item.product.id, item.product.name, item.product.price, item.quantity, item.product.price * item.quantity)
  }

  /** What the page shows: the empty-cart panel, or the item rows and the order summary. */
  datatype CartView =
    | EmptyCart
    | Summary(lines: seq<Line>, subtotal: int, shipping: int, grandTotal: int)

  function View(items: seq<CartItem>, subtotal: int): (v: CartView)
    ensures v.EmptyCart? <==> |items| == 0
    ensures v.Summary? ==>
      && |v.lines| == |items|
      && (forall i :: 0 <= i < |items| ==> v.lines[i] == LineOf(items[i]))
      && v.subtotal == subtotal
      && v.grandTotal == v.subtotal + v.shipping
      && (v.shipping == 0 <==> subtotal > FreeShippingAbove)
      && v.shipping == Shipping(subtotal)
      && v.grandTotal == GrandTotal(subtotal)
  {
    if |items| == 0 then EmptyCart
    else Summary(seq(|items|, i requires 0 <= i < |items| => LineOf(items[i])), subtotal, Shipping(subtotal), GrandTotal(subtotal))
  }
}
