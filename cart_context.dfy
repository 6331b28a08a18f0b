/** The shopping cart of client/src/context/CartContext.js: a list of line
    items keyed by product id, replaced wholesale by each operation. */
module CartContext {
  import Seqs

  /** A product as handed to `addToCart`; its `price` is a number (a missing
      price is not modelled), so `price || 0` is the price itself. */
  datatype Product = Product(id: int, name: string, price: real)

  /** A cart line: the product's fields spread into the item, plus `quantity`.
      A `quantity` of 0 stands for an absent or zero quantity: both are falsy,
      and the code reads them as `quantity || 1`. */
  datatype CartItem = CartItem(id: int, name: string, price: real, quantity: int)

  type Cart = seq<CartItem>

  /** `quantity || 1`. */
  function Or1(q: int): int
  {
    if q == 0 then 1 else q
  }

  predicate HasId(cart: Cart, id: int)
  {
    exists i :: 0 <= i < |cart| && cart[i].id == id
  }

  /** The state every operation keeps, starting from the empty cart: no two
      lines share an id, and every quantity is at least 1. */
  predicate Valid(cart: Cart)
  {
    && (forall i, j :: 0 <= i < j < |cart| ==> cart[i].id != cart[j].id)
    && (forall i :: 0 <= i < |cart| ==> cart[i].quantity >= 1)
  }

  /** The `map` branch of `addToCart`: every line with `id` gets
      `(quantity || 1) + 1`. */
  function Bump(cart: Cart, id: int): (r: Cart)
    ensures |r| == |cart|
    ensures forall i :: 0 <= i < |r| ==>
      r[i] == if cart[i].id == id then cart[i].(quantity := Or1(cart[i].quantity) + 1) else cart[i]
  {
    if cart == [] then []
    else
      [if cart[0].id == id then cart[0].(quantity := Or1(cart[0].quantity) + 1) else cart[0]]
      + Bump(cart[1..], id)
  }

  /** `addToCart(product)`: a product already in the cart has its quantity
      raised, with the length unchanged; a new one is appended with quantity 1. */
  function AddToCart(cart: Cart, p: Product): (r: Cart)
    ensures HasId(cart, p.id) ==> r == Bump(cart, p.id) && |r| == |cart|
    ensures !HasId(cart, p.id) ==> r == cart + [CartItem(p.id, p.name, p.price, 1)]
  {
    if HasId(cart, p.id) then Bump(cart, p.id) else cart + [CartItem(p.id, p.name, p.price, 1)]
  }

  /** The filter test of `removeFromCart`: the line's id differs. */
  function OtherId(id: int): CartItem -> bool
  {
    (item: CartItem) => item.id != id
  }

  /** The complementary test: the line carries `id`. */
  function SameId(id: int): CartItem -> bool
  {
    (item: CartItem) => item.id == id
  }

  /** `removeFromCart(productId)`: keep every line whose id differs. */
  function RemoveFromCart(cart: Cart, id: int): (r: Cart)
    ensures forall i :: 0 <= i < |r| ==> r[i].id != id && r[i] in cart
    ensures forall i :: 0 <= i < |cart| && cart[i].id != id ==> cart[i] in r
  {
    Seqs.Filter(cart, OtherId(id))
  }

  /** The `map` branch of `updateQuantity`. */
  function SetQuantity(cart: Cart, id: int, q: int): (r: Cart)
    ensures |r| == |cart|
    ensures forall i :: 0 <= i < |r| ==>
      r[i] == if cart[i].id == id then cart[i].(quantity := q) else cart[i]
  {
    if cart == [] then []
    else [if cart[0].id == id then cart[0].(quantity := q) else cart[0]] + SetQuantity(cart[1..], id, q)
  }

  /** `updateQuantity(productId, quantity)`: a quantity of 0 or less removes
      the line, any other sets it on the lines with that id only. */
  function UpdateQuantity(cart: Cart, id: int, q: int): (r: Cart)
    ensures q <= 0 ==> r == RemoveFromCart(cart, id)
    ensures q > 0 ==> |r| == |cart| && forall i :: 0 <= i < |r| ==>
      r[i] == if cart[i].id == id then cart[i].(quantity := q) else cart[i]
  {
    if q <= 0 then RemoveFromCart(cart, id) else SetQuantity(cart, id, q)
  }

  /** `clearCart()`. */
  function ClearCart(cart: Cart): (r: Cart)
    ensures r == [] && TotalPrice(r) == 0.0 && CartCount(r) == 0
  {
    []
  }

  /** One line's contribution to `getTotalPrice`: `(price || 0) * (quantity || 1)`. */
  function LinePrice(item: CartItem): real
  {
    item.price * Or1(item.quantity) as real
  }

  /** `getTotalPrice()`. */
  function TotalPrice(cart: Cart): real
  {
    if cart == [] then 0.0 else LinePrice(cart[0]) + TotalPrice(cart[1..])
  }

  /** `getCartCount()`. */
  function CartCount(cart: Cart): int
  {
    if cart == [] then 0 else Or1(cart[0].quantity) + CartCount(cart[1..])
  }

  /** The price stored on the first line with `id` (0 if there is none). */
  function PriceIn(cart: Cart, id: int): real
  {
    if cart == [] then 0.0 else if cart[0].id == id then cart[0].price else PriceIn(cart[1..], id)
  }

  /** The quantity stored on the first line with `id` (0 if there is none). */
  function QuantityIn(cart: Cart, id: int): int
  {
    if cart == [] then 0 else if cart[0].id == id then cart[0].quantity else QuantityIn(cart[1..], id)
  }

  lemma {:induction false} ValidTail(cart: Cart)
    requires Valid(cart) && cart != []
    ensures Valid(cart[1..]) && !HasId(cart[1..], cart[0].id)
  {
  }

  lemma {:induction false} BumpSums(cart: Cart, id: int)
    requires Valid(cart) && HasId(cart, id)
    ensures CartCount(Bump(cart, id)) == CartCount(cart) + 1
    ensures TotalPrice(Bump(cart, id)) == TotalPrice(cart) + PriceIn(cart, id)
  {
    ValidTail(cart);
    var b := Bump(cart, id);
    assert b[1..] == Bump(cart[1..], id);
    if cart[0].id == id {
      NotPresentUnchanged(cart[1..], id);
    } else {
      assert HasId(cart[1..], id) by {
        var i :| 0 <= i < |cart| && cart[i].id == id;
        assert cart[1..][i - 1].id == id;
      }
      BumpSums(cart[1..], id);
    }
  }

  lemma {:induction false} NotPresentUnchanged(cart: Cart, id: int)
    requires !HasId(cart, id)
    ensures Bump(cart, id) == cart
  {
    if cart != [] {
      forall i | 0 <= i < |cart[1..]| ensures cart[1..][i].id != id {
        assert cart[1..][i] == cart[i + 1];
      }
      NotPresentUnchanged(cart[1..], id);
    }
  }

  lemma {:induction false} AppendSums(cart: Cart, item: CartItem)
    ensures CartCount(cart + [item]) == CartCount(cart) + Or1(item.quantity)
    ensures TotalPrice(cart + [item]) == TotalPrice(cart) + LinePrice(item)
  {
    if cart != [] {
      assert (cart + [item])[1..] == cart[1..] + [item];
      AppendSums(cart[1..], item);
    }
  }

  /** Every `addToCart` raises `getCartCount` by exactly one, and raises
      `getTotalPrice` by one unit price: the price already stored on the line
      when the product is in the cart (the new product's price is ignored),
      otherwise the product's own price. */
  lemma AddToCartSums(cart: Cart, p: Product)
    requires Valid(cart)
    ensures CartCount(AddToCart(cart, p)) == CartCount(cart) + 1
    ensures TotalPrice(AddToCart(cart, p)) ==
      TotalPrice(cart) + if HasId(cart, p.id) then PriceIn(cart, p.id) else p.price
  {
    if HasId(cart, p.id) {
      BumpSums(cart, p.id);
    } else {
      AppendSums(cart, CartItem(p.id, p.name, p.price, 1));
    }
  }

  /** Every operation keeps the ids unique and the quantities positive. */
  lemma AddToCartValid(cart: Cart, p: Product)
    requires Valid(cart)
    ensures Valid(AddToCart(cart, p))
  {
  }

  lemma {:induction false} RemoveFromCartValid(cart: Cart, id: int)
    requires Valid(cart)
    ensures Valid(RemoveFromCart(cart, id))
  {
    if cart != [] {
      ValidTail(cart);
      RemoveFromCartValid(cart[1..], id);
      assert RemoveFromCart(cart, id) ==
        (if cart[0].id != id then [cart[0]] else []) + RemoveFromCart(cart[1..], id);
      var rest := RemoveFromCart(cart[1..], id);
      forall i | 0 <= i < |rest| ensures rest[i].id != cart[0].id {
        assert rest[i] in cart[1..];
      }
    }
  }

  lemma UpdateQuantityValid(cart: Cart, id: int, q: int)
    requires Valid(cart)
    ensures Valid(UpdateQuantity(cart, id, q))
  {
    if q <= 0 {
      RemoveFromCartValid(cart, id);
    }
  }

  /** After `removeFromCart(id)` the total is what the other lines contribute:
      removal splits the total between the lines kept and the lines with `id`. */
  lemma {:induction false} RemoveFromCartTotal(cart: Cart, id: int)
    ensures TotalPrice(cart) == TotalPrice(RemoveFromCart(cart, id)) + TotalPrice(Seqs.Filter(cart, SameId(id)))
  {
    if cart != [] {
      RemoveFromCartTotal(cart[1..], id);
      var kept := Seqs.Filter(cart[1..], OtherId(id));
      var gone := Seqs.Filter(cart[1..], SameId(id));
      if cart[0].id == id {
        assert Seqs.Filter(cart, OtherId(id)) == kept;
        assert Seqs.Filter(cart, SameId(id)) == [cart[0]] + gone;
        assert ([cart[0]] + gone)[1..] == gone;
      } else {
        assert Seqs.Filter(cart, OtherId(id)) == [cart[0]] + kept;
        assert Seqs.Filter(cart, SameId(id)) == gone;
        assert ([cart[0]] + kept)[1..] == kept;
      }
    }
  }

  lemma {:induction false} SetQuantityUnchanged(cart: Cart, id: int, q: int)
    requires !HasId(cart, id)
    ensures SetQuantity(cart, id, q) == cart
  {
    if cart != [] {
      forall i | 0 <= i < |cart[1..]| ensures cart[1..][i].id != id {
        assert cart[1..][i] == cart[i + 1];
      }
      SetQuantityUnchanged(cart[1..], id, q);
    }
  }

  /** Setting a positive quantity on a line in the cart replaces that line's
      share of `getCartCount` by the new quantity. */
  lemma {:induction false} UpdateQuantityCount(cart: Cart, id: int, q: int)
    requires Valid(cart) && HasId(cart, id) && q > 0
    ensures CartCount(UpdateQuantity(cart, id, q)) == CartCount(cart) - QuantityIn(cart, id) + q
  {
    ValidTail(cart);
    var r := SetQuantity(cart, id, q);
    assert r[1..] == SetQuantity(cart[1..], id, q);
    if cart[0].id == id {
      SetQuantityUnchanged(cart[1..], id, q);
    } else {
      assert HasId(cart[1..], id) by {
        var i :| 0 <= i < |cart| && cart[i].id == id;
        assert cart[1..][i - 1].id == id;
      }
      UpdateQuantityCount(cart[1..], id, q);
    }
  }
}
