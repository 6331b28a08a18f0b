/** The cart page of client/src/pages/CartPage.js: the "+"/"−" quantity
    buttons, the line totals and the order summary. */
module CartPage {
  import CartContext
  import CheckoutPage

  /** `handleQuantityChange(itemId, newQuantity)`: forwarded to
      `updateQuantity` only when the new quantity is positive, so the page
      never removes a line through the quantity buttons. */
  function HandleQuantityChange(cart: CartContext.Cart, id: int, newQuantity: int): (r: CartContext.Cart)
    ensures newQuantity > 0 ==> r == CartContext.UpdateQuantity(cart, id, newQuantity)
    ensures newQuantity <= 0 ==> r == cart
    ensures |r| == |cart|
  {
    if newQuantity > 0 then CartContext.UpdateQuantity(cart, id, newQuantity) else cart
  }

  /** The "+" button of a line: requests one more of that item. */
  function Increment(cart: CartContext.Cart, item: CartContext.CartItem): CartContext.Cart
  {
    HandleQuantityChange(cart, item.id, item.quantity + 1)
  }

  /** The "−" button of a line: requests one fewer of that item. */
  function Decrement(cart: CartContext.Cart, item: CartContext.CartItem): CartContext.Cart
  {
    HandleQuantityChange(cart, item.id, item.quantity - 1)
  }

  /** "−" on a line holding one item does nothing; on a line holding more it
      lowers that line's quantity by one and no other line changes. */
  lemma DecrementEffect(cart: CartContext.Cart, item: CartContext.CartItem)
    ensures item.quantity <= 1 ==> Decrement(cart, item) == cart
    ensures item.quantity > 1 ==> |Decrement(cart, item)| == |cart|
    ensures item.quantity > 1 ==> forall i :: 0 <= i < |cart| ==>
      Decrement(cart, item)[i] == (if cart[i].id == item.id then cart[i].(quantity := item.quantity - 1) else cart[i])
  {
  }

  /** "+" on a line of a cart the cart operations built raises the item
      count by exactly one and keeps the cart well formed. */
  lemma IncrementCount(cart: CartContext.Cart, i: int)
    requires CartContext.Valid(cart) && 0 <= i < |cart|
    ensures CartContext.CartCount(Increment(cart, cart[i])) == CartContext.CartCount(cart) + 1
    ensures CartContext.Valid(Increment(cart, cart[i]))
  {
    var item := cart[i];
    var q := item.quantity + 1;
    assert q > 0;
    IncrementIsUpdate(cart, item);
    FirstWithId(cart, i);
    CartContext.UpdateQuantityCount(cart, item.id, q);
    CartContext.UpdateQuantityValid(cart, item.id, q);
  }

  /** On a line holding at least one item, "+" is `updateQuantity` with one
      more. */
  lemma IncrementIsUpdate(cart: CartContext.Cart, item: CartContext.CartItem)
    requires item.quantity >= 1
    ensures Increment(cart, item) == CartContext.UpdateQuantity(cart, item.id, item.quantity + 1)
  {
  }

  /** In a cart with unique ids the line at `i` is the first with its id. */
  lemma {:induction false} FirstWithId(cart: CartContext.Cart, i: int)
    requires CartContext.Valid(cart) && 0 <= i < |cart|
    ensures CartContext.HasId(cart, cart[i].id)
    ensures CartContext.QuantityIn(cart, cart[i].id) == cart[i].quantity
  {
    if i > 0 {
      CartContext.ValidTail(cart);
      assert cart[1..][i - 1] == cart[i];
      FirstWithId(cart[1..], i - 1);
    }
  }

  /** A line's total: `(price || 0) * quantity`. */
  function LineTotal(item: CartContext.CartItem): real
  {
    item.price * item.quantity as real
  }

  function SumLineTotals(cart: CartContext.Cart): real
  {
    if cart == [] then 0.0 else LineTotal(cart[0]) + SumLineTotals(cart[1..])
  }

  /** The line totals add up to the summary's subtotal `getTotalPrice()` on
      every cart the cart operations build. */
  lemma {:induction false} LineTotalsAddUp(cart: CartContext.Cart)
    requires CartContext.Valid(cart)
    ensures SumLineTotals(cart) == CartContext.TotalPrice(cart)
  {
    if cart != [] {
      CartContext.ValidTail(cart);
      LineTotalsAddUp(cart[1..]);
    }
  }

  /** The summary's tax line: 18% of `getTotalPrice()`. */
  function SummaryTax(cart: CartContext.Cart): real
  {
    CartContext.TotalPrice(cart) * 18.0 / 100.0
  }

  /** The summary's total line: `getTotalPrice() * 1.18`. */
  function SummaryTotal(cart: CartContext.Cart): real
  {
    CartContext.TotalPrice(cart) * 118.0 / 100.0
  }

  /** The summary's total is its subtotal plus its tax, with shipping shown
      as free. The checkout page charges 60 for shipping on subtotals up to
      500, so its total exceeds the cart page's by exactly that shipping. */
  lemma SummaryAgainstCheckout(cart: CartContext.Cart)
    requires CartContext.Valid(cart)
    ensures SummaryTotal(cart) == CartContext.TotalPrice(cart) + SummaryTax(cart)
    ensures CheckoutPage.Total(cart) == SummaryTotal(cart) + CheckoutPage.Shipping(CartContext.TotalPrice(cart))
  {
    CheckoutPage.SubtotalIsCartTotal(cart);
  }
}
